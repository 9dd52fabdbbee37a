/** The companion's package encoder, and its agreement with the device's validator. */
module Pcw1 {
  import opened Bytes
  import opened WalletCore
  import Crc32

  datatype DevicePage = DevicePage(kind: nat, privatePage: bool, palette: seq<u32>, pixels: seq<byte>)
  {
    /** What the page constructor enforces. */
    predicate Valid() {
      kind <= 4 && (privatePage <==> kind == 4) && |palette| == 16 && |pixels| == PIXEL_BYTES &&
      forall c | c in palette :: c / 0x100_0000 == 0xff
    }

    /** What the device accepts: pages of the middle kinds may be private or not. */
    predicate Storable() {
      kind <= 4 && (kind == 0 ==> !privatePage) && (kind == 4 ==> privatePage) && |palette| == 16 && |pixels| == PIXEL_BYTES &&
      forall c | c in palette :: c / 0x100_0000 == 0xff
    }
  }

  predicate AllStorable(pages: seq<DevicePage>) { forall p | p in pages :: p.Storable() }

  /** What the device accepts as a list. */
  predicate Acceptable(pages: seq<DevicePage>) {
    1 <= |pages| <= MAX_PAGES && pages[0].kind == 0 && Kinds(pages, 0) == 1 && AllStorable(pages)
  }

  predicate Legal(pages: seq<DevicePage>) {
    1 <= |pages| <= MAX_PAGES && pages[0].kind == 0 && Kinds(pages, 0) == 1 && forall p | p in pages :: p.Valid()
  }

  function Kinds(pages: seq<DevicePage>, kind: nat): (n: nat) {
    if pages == [] then 0
    else Kinds(pages[..|pages| - 1], kind) + if pages[|pages| - 1].kind == kind then 1 else 0
  }

  function PaletteBytes(palette: seq<u32>): (s: seq<byte>)
    ensures |s| == 4 * |palette|
    ensures forall c | 0 <= c < |palette| :: s[4 * c + 3] == palette[c] / 0x100_0000
  {
    if palette == [] then []
    else
      var n := |palette| - 1;
      PaletteBytes(palette[..n]) + Le32(palette[n])
  }

  function PageBytes(page: DevicePage): (s: seq<byte>)
    requires page.Storable()
    ensures |s| == PAGE_RECORD_SIZE
  {
    [page.kind, if page.privatePage then 1 else 0, 0, 0] + PaletteBytes(page.palette) + page.pixels
  }

  function Body(pages: seq<DevicePage>): (s: seq<byte>)
    requires AllStorable(pages)
    ensures |s| == |pages| * PAGE_RECORD_SIZE
  {
    if pages == [] then []
    else
      assert forall p | p in pages[..|pages| - 1] :: p in pages;
      Body(pages[..|pages| - 1]) + PageBytes(pages[|pages| - 1])
  }

  function HeaderBytes(count: u16, total: u32, created: u64, crc: u32): (s: seq<byte>)
    ensures |s| == HEADER_SIZE
  {
    MAGIC + Le16(1) + Le16(count) + Le16(WIDTH) + Le16(HEIGHT) + Le32(total) + Le64(created) + Le32(crc) + Le32(0)
  }

  function Package(pages: seq<DevicePage>, created: u64): (s: seq<byte>)
    requires Acceptable(pages)
    ensures |s| == HEADER_SIZE + |pages| * PAGE_RECORD_SIZE
  {
    HeaderBytes(|pages|, HEADER_SIZE + |pages| * PAGE_RECORD_SIZE, created, Crc32.Crc(0, Body(pages))) + Body(pages)
  }

  lemma PatchedChecksum(count: u16, total: u32, created: u64, crc: u32, body: seq<byte>)
    ensures var b := HeaderBytes(count, total, created, 0) + body;
            b[..24] + Le32(crc) + b[28..] == HeaderBytes(count, total, created, crc) + body
  {
  }

  method CountCards(pages: seq<DevicePage>) returns (cards: nat)
    ensures cards == Kinds(pages, 0)
  {
    cards := 0;
    for i := 0 to |pages|
      invariant cards == Kinds(pages[..i], 0)
    {
      assert pages[..i + 1][..i] == pages[..i];
      if pages[i].kind == 0 { cards := cards + 1; }
    }
    assert pages[..|pages|] == pages;
  }

  method PutPages(start: seq<byte>, pages: seq<DevicePage>) returns (b: seq<byte>)
    requires AllStorable(pages)
    ensures b == start + Body(pages)
  {
    b := start;
    for i := 0 to |pages|
      invariant AllStorable(pages[..i])
      invariant b == start + Body(pages[..i])
    {
      assert pages[..i + 1][..i] == pages[..i];
      b := b + PageBytes(pages[i]);
    }
    assert pages[..|pages|] == pages;
  }

  /** Fills the buffer with a zero checksum, appends every page, then patches the checksum over the body.
      Illegal page lists are refused. */
  method Encode(pages: seq<DevicePage>, created: u64) returns (r: Option<seq<byte>>)
    requires forall p | p in pages :: p.Valid()
    ensures r.Some? <==> Legal(pages)
    ensures r.Some? ==> r.value == Package(pages, created)
  {
    hide Crc32.Crc, Body, Kinds;
    if |pages| == 0 || |pages| > MAX_PAGES || pages[0].kind != 0 { return None; }
    var cards := CountCards(pages);
    if cards != 1 { return None; }
    var total := HEADER_SIZE + |pages| * PAGE_RECORD_SIZE;
    var b := PutPages(HeaderBytes(|pages|, total, created, 0), pages);
    assert b[HEADER_SIZE..] == Body(pages);
    var crc := Crc32.Compute(0, b[HEADER_SIZE..]);
    PatchedChecksum(|pages|, total, created, crc, Body(pages));
    r := Some(b[..24] + Le32(crc) + b[28..]);
  }

  lemma HeaderFields(count: u16, total: u32, created: u64, crc: u32)
    ensures var h := HeaderBytes(count, total, created, crc);
            h[..4] == MAGIC && Read16(h, 4) == 1 && Read16(h, 6) == count && Read16(h, 8) == WIDTH && Read16(h, 10) == HEIGHT &&
            Read32(h, 12) == total && Read64(h, 16) == created && Read32(h, 24) == crc && Read32(h, 28) == 0
  {
    hide Le16, Le32, Le64;
    var h := HeaderBytes(count, total, created, crc);
    assert h[..4] == MAGIC;
    ReadLe16(h, 4, 1);
    ReadLe16(h, 6, count);
    ReadLe16(h, 8, WIDTH);
    ReadLe16(h, 10, HEIGHT);
    ReadLe32(h, 12, total);
    ReadLe64(h, 16, created);
    ReadLe32(h, 24, crc);
    ReadLe32(h, 28, 0);
  }

  /** Record `page` of the body is exactly that page. */
  lemma {:induction false} BodyRecord(pages: seq<DevicePage>, page: nat)
    requires page < |pages| && AllStorable(pages)
    ensures |Body(pages)| >= (page + 1) * PAGE_RECORD_SIZE
    ensures Body(pages)[page * PAGE_RECORD_SIZE..(page + 1) * PAGE_RECORD_SIZE] == PageBytes(pages[page])
  {
    var front := pages[..|pages| - 1];
    assert forall p | p in front :: p in pages;
    if page < |pages| - 1 {
      BodyRecord(front, page);
      assert Body(pages)[page * PAGE_RECORD_SIZE..(page + 1) * PAGE_RECORD_SIZE]
          == Body(front)[page * PAGE_RECORD_SIZE..(page + 1) * PAGE_RECORD_SIZE];
    }
  }

  /** The octets of one legal page pass the metadata and palette checks. */
  lemma PageShape(page: DevicePage)
    requires page.Storable()
    ensures PageValid(PageBytes(page)[..68]) && PaletteOpaque(PageBytes(page)[..68]) && PageBytes(page)[0] == page.kind
  {
    var record := PageBytes(page)[..68];
    var palette := PaletteBytes(page.palette);
    forall color | 0 <= color < 16 ensures record[4 + color * 4 + 3] == 0xff {
      assert record[4 + color * 4 + 3] == palette[4 * color + 3];
      assert page.palette[color] in page.palette;
    }
  }

  /** A package carries this body behind its header. */
  predicate Carries(p: seq<byte>, pages: seq<DevicePage>)
    requires Acceptable(pages)
  {
    |p| == HEADER_SIZE + |pages| * PAGE_RECORD_SIZE && p[HEADER_SIZE..] == Body(pages)
  }

  lemma RecordAccepted(p: seq<byte>, pages: seq<DevicePage>, page: nat)
    requires page < |pages| && Acceptable(pages) && Carries(p, pages)
    ensures PageAccepted(p, page) && PageKind(p, page) == pages[page].kind
  {
    BodyRecord(pages, page);
    PageShape(pages[page]);
    var at := PageOffset(page);
    var body := p[HEADER_SIZE..];
    var record := p[at..at + 68];
    assert record == body[page * PAGE_RECORD_SIZE..(page + 1) * PAGE_RECORD_SIZE][..68];
    assert p[at] == record[0];
  }

  lemma {:induction false} CountsMatch(p: seq<byte>, pages: seq<DevicePage>, n: nat, kind: nat)
    requires n <= |pages| && Acceptable(pages) && Carries(p, pages)
    ensures CountKind(p, n, kind) == Kinds(pages[..n], kind)
  {
    if n > 0 {
      assert pages[..n][..n - 1] == pages[..n - 1];
      CountsMatch(p, pages, n - 1, kind);
      RecordAccepted(p, pages, n - 1);
    }
  }

  lemma HeaderAgrees(pages: seq<DevicePage>, created: u64)
    requires Acceptable(pages)
    ensures var p := Package(pages, created);
            HeaderParse(p[..HEADER_SIZE]) == Some(Header(|pages|, |p|, Crc32.Crc(0, p[HEADER_SIZE..]), created))
  {
    hide Crc32.Crc, Body;
    var p, crc := Package(pages, created), Crc32.Crc(0, Body(pages));
    HeaderFields(|pages|, HEADER_SIZE + |pages| * PAGE_RECORD_SIZE, created, crc);
    assert p[..HEADER_SIZE] == HeaderBytes(|pages|, HEADER_SIZE + |pages| * PAGE_RECORD_SIZE, created, crc);
    assert p[HEADER_SIZE..] == Body(pages);
  }

  lemma PagesAgree(pages: seq<DevicePage>, created: u64)
    requires Acceptable(pages)
    ensures var p := Package(pages, created);
            AllPagesAccepted(p, |pages|) && forall k | 0 <= k < KIND_COUNT :: CountKind(p, |pages|, k) == Kinds(pages, k)
  {
    hide Crc32.Crc, Body, PageAccepted;
    var p := Package(pages, created);
    assert p[HEADER_SIZE..] == Body(pages);
    forall page | 0 <= page < |pages| ensures PageAccepted(p, page) {
      RecordAccepted(p, pages, page);
    }
    assert pages[..|pages|] == pages;
    forall k | 0 <= k < KIND_COUNT ensures CountKind(p, |pages|, k) == Kinds(pages, k) {
      CountsMatch(p, pages, |pages|, k);
    }
  }

  lemma AcceptableAccepted(pages: seq<DevicePage>, created: u64)
    requires Acceptable(pages)
    ensures var p := Package(pages, created);
            var v := Judge(p, Crc32.Crc(0, p));
            v.Accepted? && v.info.header.pageCount == |pages| && v.info.header.createdAt == created &&
            forall k | 0 <= k < KIND_COUNT :: v.info.counts[k] == Kinds(pages, k)
  {
    hide HeaderParse, AllPagesAccepted, CountKind, Crc32.Crc, Package;
    HeaderAgrees(pages, created);
    PagesAgree(pages, created);
  }

  /** Every legal page list encodes to a package the device accepts, with the header's timestamp and per-kind counts
      equal to those of the input. */
  lemma EncoderAgreesWithValidator(pages: seq<DevicePage>, created: u64)
    requires Legal(pages)
    ensures var p := Package(pages, created);
            var v := Judge(p, Crc32.Crc(0, p));
            v.Accepted? && v.info.header.pageCount == |pages| && v.info.header.createdAt == created &&
            forall k | 0 <= k < KIND_COUNT :: v.info.counts[k] == Kinds(pages, k)
  {
    hide Judge, Package;
    AcceptableAccepted(pages, created);
  }

  // ----- and nothing else is accepted

  function Colors(record: seq<byte>, n: nat): (palette: seq<u32>)
    requires |record| >= 4 + 4 * n
    ensures |palette| == n && forall c | 0 <= c < n :: palette[c] == Read32(record, 4 + 4 * c)
  {
    seq(n, c requires 0 <= c < n => Read32(record, 4 + 4 * c))
  }

  function PageOf(record: seq<byte>): DevicePage
    requires |record| == PAGE_RECORD_SIZE
  {
    DevicePage(record[0], record[1] == 1, Colors(record, 16), record[68..])
  }

  lemma {:induction false} ColorsRead(record: seq<byte>, n: nat)
    requires |record| >= 4 + 4 * n
    ensures PaletteBytes(Colors(record, n)) == record[4..4 + 4 * n]
  {
    if n > 0 {
      ColorsRead(record, n - 1);
      assert Colors(record, n)[..n - 1] == Colors(record, n - 1);
      LeRead32(record, 4 * n);
      assert record[4..4 + 4 * n] == record[4..4 * n] + record[4 * n..4 * n + 4];
    }
  }

  /** A record that passes the checks is exactly the octets of one page. */
  lemma RecordRead(record: seq<byte>)
    requires |record| == PAGE_RECORD_SIZE && PageValid(record) && PaletteOpaque(record)
    ensures PageOf(record).Storable() && PageBytes(PageOf(record)) == record && PageOf(record).kind == record[0]
  {
    var page := PageOf(record);
    forall c | c in page.palette ensures c / 0x100_0000 == 0xff {
      var color :| 0 <= color < 16 && page.palette[color] == c;
      LastOctet(record, 4 + 4 * color);
      assert record[4 + color * 4 + 3] == 0xff;
    }
    ColorsRead(record, 16);
    assert record == record[..4] + record[4..68] + record[68..];
  }

  lemma LastOctet(p: seq<byte>, at: nat)
    requires at + 4 <= |p|
    ensures Read32(p, at) / 0x100_0000 == p[at + 3]
  {
  }

  function PagesOf(p: seq<byte>, n: nat): (pages: seq<DevicePage>)
    requires HoldsPages(p, n)
    ensures |pages| == n
  {
    if n == 0 then [] else PagesOf(p, n - 1) + [PageOf(p[PageOffset(n - 1)..PageOffset(n)])]
  }

  lemma PagePasses(p: seq<byte>, n: nat)
    requires HoldsPages(p, n + 1) && PageAccepted(p, n)
    ensures PageOffset(n + 1) - PageOffset(n) == PAGE_RECORD_SIZE
    ensures var record := p[PageOffset(n)..PageOffset(n + 1)];
            PageValid(record) && PaletteOpaque(record) && record[0] == PageKind(p, n) && (n == 0 ==> record[0] == 0)
  {
    var record, front := p[PageOffset(n)..PageOffset(n + 1)], p[PageOffset(n)..PageOffset(n) + 68];
    assert record[..68] == front;
  }

  lemma {:induction false} PagesRead(p: seq<byte>, n: nat)
    requires HoldsPages(p, n) && AllPagesAccepted(p, n)
    ensures AllStorable(PagesOf(p, n)) && Body(PagesOf(p, n)) == p[HEADER_SIZE..PageOffset(n)]
    ensures n > 0 ==> PagesOf(p, n)[0].kind == 0
  {
    hide PageAccepted, PageValid, PaletteOpaque, PageOf, PageBytes;
    if n > 0 {
      PagesRead(p, n - 1);
      PagePasses(p, n - 1);
      RecordRead(p[PageOffset(n - 1)..PageOffset(n)]);
      assert PagesOf(p, n)[..n - 1] == PagesOf(p, n - 1);
      assert p[HEADER_SIZE..PageOffset(n)] == p[HEADER_SIZE..PageOffset(n - 1)] + p[PageOffset(n - 1)..PageOffset(n)];
    }
  }

  lemma {:induction false} KindsRead(p: seq<byte>, n: nat, kind: nat)
    requires HoldsPages(p, n) && AllPagesAccepted(p, n)
    ensures Kinds(PagesOf(p, n), kind) == CountKind(p, n, kind)
  {
    hide PageAccepted, PageValid, PaletteOpaque, PageOf;
    if n > 0 {
      KindsRead(p, n - 1, kind);
      PagePasses(p, n - 1);
      RecordRead(p[PageOffset(n - 1)..PageOffset(n)]);
      assert PagesOf(p, n)[..n - 1] == PagesOf(p, n - 1);
    }
  }

  lemma HeaderRead(h: seq<byte>)
    requires |h| == HEADER_SIZE && HeaderParse(h).Some?
    ensures var v := HeaderParse(h).value; h == HeaderBytes(v.pageCount, v.totalSize, v.createdAt, v.bodyCrc)
  {
    hide Le16, Le32, Le64;
    LeRead16(h, 4);
    LeRead16(h, 6);
    LeRead16(h, 8);
    LeRead16(h, 10);
    LeRead32(h, 12);
    LeRead64(h, 16);
    LeRead32(h, 24);
    LeRead32(h, 28);
    assert h == h[..4] + h[4..6] + h[6..8] + h[8..10] + h[10..12] + h[12..16] + h[16..24] + h[24..28] + h[28..32];
  }

  /** What was accepted is the package of the pages read from it. */
  lemma AcceptedIsPackage(p: seq<byte>, crc: u32)
    requires Judge(p, crc).Accepted?
    ensures crc == Crc32.Crc(0, p) && HoldsPages(p, Judge(p, crc).info.header.pageCount)
    ensures var h := Judge(p, crc).info.header;
            Acceptable(PagesOf(p, h.pageCount)) && p == Package(PagesOf(p, h.pageCount), h.createdAt)
  {
    hide Crc32.Crc, HeaderParse, PageAccepted, CountKind, Kinds, Body, HeaderBytes;
    var h := HeaderParse(p[..HEADER_SIZE]).value;
    HeaderRead(p[..HEADER_SIZE]);
    PagesRead(p, h.pageCount);
    KindsRead(p, h.pageCount, 0);
    assert p == p[..HEADER_SIZE] + p[HEADER_SIZE..] && p[HEADER_SIZE..PageOffset(h.pageCount)] == p[HEADER_SIZE..];
  }

  /** The device accepts exactly the packages of acceptable page lists, under exactly their checksum. */
  lemma AcceptsExactly(p: seq<byte>, crc: u32)
    ensures Judge(p, crc).Accepted? <==>
            crc == Crc32.Crc(0, p) && exists pages, created: u64 :: Acceptable(pages) && p == Package(pages, created)
  {
    hide Judge, Package, Acceptable, Crc32.Crc;
    if Judge(p, crc).Accepted? { AcceptedIsPackage(p, crc); }
    if crc == Crc32.Crc(0, p) && exists pages, created: u64 :: Acceptable(pages) && p == Package(pages, created) {
      var pages, created: u64 :| Acceptable(pages) && p == Package(pages, created);
      AcceptableAccepted(pages, created);
    }
  }
}
