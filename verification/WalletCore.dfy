/** The PCW1 page package: header, page records and what the device accepts as a snapshot. */
module WalletCore {
  import opened Bytes
  import Crc32

  const WIDTH := 216
  const HEIGHT := 256
  const MAX_PAGES := 52
  const HEADER_SIZE := 32
  const PIXEL_BYTES := 27648
  const PAGE_IMAGE_SIZE := 27712
  const PAGE_RECORD_SIZE := 27716
  const MAX_SIZE := HEADER_SIZE + MAX_PAGES * PAGE_RECORD_SIZE
  const KIND_COUNT := 5

  datatype Header = Header(pageCount: u16, totalSize: u32, bodyCrc: u32, createdAt: u64)
  datatype Info = Info(available: bool, header: Header, counts: seq<nat>, revision: u32)
  datatype Verdict = Accepted(info: Info) | FormatError | CrcError

  const NO_INFO: Info := Info(false, Header(0, 0, 0, 0), [0, 0, 0, 0, 0], 0)
  const MAGIC: seq<byte> := [0x50, 0x43, 0x57, 0x31]  // "PCW1"

  function HeaderParse(data: seq<byte>): (r: Option<Header>)
    ensures r.Some? ==> 1 <= r.value.pageCount <= MAX_PAGES
    ensures r.Some? ==> r.value.totalSize == HEADER_SIZE + r.value.pageCount * PAGE_RECORD_SIZE
  {
    if |data| < HEADER_SIZE || data[..4] != MAGIC || Read16(data, 4) != 1 ||
       Read16(data, 8) != WIDTH || Read16(data, 10) != HEIGHT || Read32(data, 28) != 0
    then None
    else
      var count := Read16(data, 6);
      if count == 0 || count > MAX_PAGES then None
      else
        var size := HEADER_SIZE + count * PAGE_RECORD_SIZE;
        if Read32(data, 12) != size then None
        else Some(Header(count, size, Read32(data, 24), Read64(data, 16)))
  }

  /** The four metadata octets: kind, private flag and two reserved zeros; the card is public, assets are private. */
  predicate PageValid(metadata: seq<byte>)
    requires |metadata| >= 4
  {
    metadata[0] < KIND_COUNT && metadata[1] <= 1 && metadata[2] == 0 && metadata[3] == 0 &&
    (metadata[0] == 0 ==> metadata[1] == 0) && (metadata[0] == 4 ==> metadata[1] == 1)
  }

  function PageOffset(page: nat): nat { HEADER_SIZE + page * PAGE_RECORD_SIZE }

  predicate HoldsPages(p: seq<byte>, count: nat) { |p| >= PageOffset(count) }

  function PageKind(p: seq<byte>, page: nat): byte
    requires HoldsPages(p, page + 1)
  {
    p[PageOffset(page)]
  }

  predicate PaletteOpaque(record: seq<byte>)
    requires |record| >= 68
  {
    forall color | 0 <= color < 16 :: record[4 + color * 4 + 3] == 0xff
  }

  predicate PageAccepted(p: seq<byte>, page: nat)
    requires HoldsPages(p, page + 1)
  {
    var record := p[PageOffset(page)..PageOffset(page) + 68];
    PageValid(record) && (page == 0 ==> record[0] == 0) && PaletteOpaque(record)
  }

  /** How many of the first `pages` records carry a kind. */
  function CountKind(p: seq<byte>, pages: nat, kind: nat): (n: nat)
    requires HoldsPages(p, pages)
    ensures n <= pages
  {
    if pages == 0 then 0
    else CountKind(p, pages - 1, kind) + if PageKind(p, pages - 1) == kind then 1 else 0
  }

  function KindCounts(p: seq<byte>, pages: nat): (counts: seq<nat>)
    requires HoldsPages(p, pages)
    ensures |counts| == KIND_COUNT
    ensures forall k | 0 <= k < KIND_COUNT :: counts[k] == CountKind(p, pages, k)
  {
    [CountKind(p, pages, 0), CountKind(p, pages, 1), CountKind(p, pages, 2), CountKind(p, pages, 3), CountKind(p, pages, 4)]
  }

  predicate LengthAccepted(length: nat) { HEADER_SIZE + PAGE_RECORD_SIZE <= length <= MAX_SIZE }

  predicate AllPagesAccepted(p: seq<byte>, pages: nat)
    requires HoldsPages(p, pages)
  {
    forall page | 0 <= page < pages :: PageAccepted(p, page)
  }

  /** The verdict on a whole package against the checksum its transfer announced. */
  function Judge(p: seq<byte>, crc: u32): (v: Verdict)
    ensures v.Accepted? ==> v.info.available && |v.info.counts| == KIND_COUNT && v.info.counts[0] == 1 && v.info.revision == 0
  {
    if !LengthAccepted(|p|) then FormatError
    else
      var h := HeaderParse(p[..HEADER_SIZE]);
      if h.None? || h.value.totalSize != |p| then FormatError
      else if Crc32.Crc(0, p) != crc then CrcError
      else if Crc32.Crc(0, p[HEADER_SIZE..]) != h.value.bodyCrc then CrcError
      else if !AllPagesAccepted(p, h.value.pageCount) then FormatError
      else if CountKind(p, h.value.pageCount, 0) != 1 then FormatError
      else Accepted(Info(true, h.value, KindCounts(p, h.value.pageCount), 0))
  }

  /** The kinds partition the pages of an accepted package, so the published counts add up to the page count. */
  lemma {:induction false} CountsPartition(p: seq<byte>, pages: nat)
    requires HoldsPages(p, pages) && AllPagesAccepted(p, pages)
    ensures CountKind(p, pages, 0) + CountKind(p, pages, 1) + CountKind(p, pages, 2) + CountKind(p, pages, 3) +
            CountKind(p, pages, 4) == pages
  {
    if pages > 0 {
      assert PageAccepted(p, pages - 1);
      assert PageKind(p, pages - 1) == p[PageOffset(pages - 1)..PageOffset(pages - 1) + 68][0] < KIND_COUNT;
      CountsPartition(p, pages - 1);
    }
  }

  /** A package with any change confined to four neighbouring octets is refused under the checksum it was accepted with. */
  lemma DamageRefused(before: seq<byte>, a: seq<byte>, b: seq<byte>, after: seq<byte>, crc: u32)
    requires Judge(before + a + after, crc).Accepted? && |a| == |b| <= 4 && a != b
    ensures !Judge(before + b + after, crc).Accepted?
    ensures |before| >= HEADER_SIZE ==> Judge(before + b + after, crc) == CrcError
  {
    hide Crc32.Crc, HeaderParse, AllPagesAccepted, CountKind;
    Crc32.BurstNoticed(0, before, a, b, after);
    if |before| >= HEADER_SIZE {
      assert (before + a + after)[..HEADER_SIZE] == before[..HEADER_SIZE] == (before + b + after)[..HEADER_SIZE];
    }
  }

  lemma OctetDamageRefused(p: seq<byte>, i: nat, v: byte, crc: u32)
    requires i < |p| && p[i] != v && Judge(p, crc).Accepted?
    ensures !Judge(p[i := v], crc).Accepted? && (i >= HEADER_SIZE ==> Judge(p[i := v], crc) == CrcError)
  {
    hide Judge;
    assert p == p[..i] + [p[i]] + p[i + 1..];
    assert p[i := v] == p[..i] + [v] + p[i + 1..];
    DamageRefused(p[..i], [p[i]], [v], p[i + 1..], crc);
  }
}
