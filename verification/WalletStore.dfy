/** The two-bank snapshot store in front of flash that may fail, or lose power, during any call. */
module WalletStore {
  import opened Bytes
  import opened NorFlash
  import opened WalletCore
  import opened WalletBanks
  import Bits
  import Crc32

  datatype StoreResult = Ok | InvalidArg | InvalidState | NotFound | NoSpace | BadFormat | BadCrc | IoError | StaleSnapshot

  /** The checksum assumption: a bank whose erase or write was cut short reads as before, as completed, or holds no
      snapshot at all. */
  predicate CutShort(before: Bank, after: Bank, done: Bank, bank: nat) {
    after == before || after == done || Committed(after, bank).None?
  }

  /** Both banks and the saved bank number. Any call may fail; power may go at any call, and then nothing changes any more. */
  class Backend {
    var first: Bank
    var second: Bank
    var saved: Option<nat>
    var powered: bool
    /** How often a bank could not be read, its number not be looked up, and an erase, a write or a save failed. */
    ghost var firstUnread: nat
    ghost var secondUnread: nat
    ghost var lookupFaults: nat
    ghost var faults: nat

    ghost function State(): Durable
      reads `first, `second, `saved
    {
      Durable(first, second, saved)
    }

    ghost function Unread(bank: int): nat
      reads `firstUnread, `secondUnread
    {
      if bank == 0 then firstUnread else secondUnread
    }

    constructor (first: Bank, second: Bank, saved: Option<nat>)
      ensures State() == Durable(first, second, saved) && powered
    {
      this.first, this.second, this.saved, this.powered := first, second, saved, true;
      firstUnread, secondUnread, lookupFaults, faults := 0, 0, 0, 0;
    }

    method Read(bank: nat, offset: nat, length: nat) returns (ok: bool, data: seq<byte>)
      requires bank < 2 && offset + length <= BANK_SIZE
      modifies `firstUnread, `secondUnread
      ensures ok ==> data == State().At(bank)[offset..offset + length]
      ensures !powered ==> !ok
      ensures Unread(bank) == old(Unread(bank)) + (if ok then 0 else 1) && Unread(1 - bank) == old(Unread(1 - bank))
    {
      ok := *;
      ok := ok && powered;
      data := if ok then (if bank == 0 then first else second)[offset..offset + length] else [];
      if !ok {
        if bank == 0 { firstUnread := firstUnread + 1; } else { secondUnread := secondUnread + 1; }
      }
    }

    method Write(bank: nat, offset: nat, data: seq<byte>) returns (ok: bool)
      requires bank < 2 && offset + |data| <= BANK_SIZE
      modifies `first, `second, `saved, `powered, `faults
      ensures faults == old(faults) + if ok then 0 else 1
      ensures powered ==> old(powered)
      ensures !old(powered) ==> !ok && State() == old(State())
      ensures State() == old(State()).With(bank, State().At(bank))
      ensures ok ==> State().At(bank) == Program(old(State()).At(bank), offset, data)
      ensures Torn(old(State()).At(bank), State().At(bank), offset, |data|) || State().At(bank) == Program(old(State()).At(bank), offset, data)
      ensures CutShort(old(State()).At(bank), State().At(bank), Program(old(State()).At(bank), offset, data), bank)
    {
      var before := if bank == 0 then first else second;
      var done := Program(before, offset, data);
      TornItself(before, offset, |data|);
      var rest: bool, torn: seq<byte>;
      rest, torn := *, *;
      if !powered {
        faults := faults + 1;
        return false;
      }
      powered := rest;
      ok := *;
      if !ok { faults := faults + 1; }
      var after: Bank := before;
      if ok { after := done; }
      else if |torn| == BANK_SIZE && Torn(before, torn, offset, |data|) && CutShort(before, torn, done, bank) { after := torn; }
      if bank == 0 { first := after; } else { second := after; }
    }

    method EraseBank(bank: nat) returns (ok: bool)
      requires bank < 2
      modifies `first, `second, `saved, `powered, `faults
      ensures faults == old(faults) + if ok then 0 else 1
      ensures powered ==> old(powered)
      ensures !old(powered) ==> !ok && State() == old(State())
      ensures State() == old(State()).With(bank, State().At(bank))
      ensures ok ==> State().At(bank) == Erase(BANK_SIZE)
      ensures CutShort(old(State()).At(bank), State().At(bank), Erase(BANK_SIZE), bank)
    {
      var before := if bank == 0 then first else second;
      var rest: bool, torn: seq<byte>;
      rest, torn := *, *;
      if !powered {
        faults := faults + 1;
        return false;
      }
      powered := rest;
      ok := *;
      if !ok { faults := faults + 1; }
      var after: Bank := before;
      if ok { after := Erase(BANK_SIZE); }
      else if |torn| == BANK_SIZE && CutShort(before, torn, Erase(BANK_SIZE), bank) { after := torn; }
      if bank == 0 { first := after; } else { second := after; }
    }

    method LoadActiveBank() returns (r: Option<nat>)
      modifies `lookupFaults
      ensures old(lookupFaults) <= lookupFaults && r == (if lookupFaults == old(lookupFaults) then saved else None)
      ensures !powered ==> r == None
    {
      var ok: bool := *;
      if ok && powered { return saved; }
      lookupFaults := lookupFaults + 1;
      r := None;
    }

    method SaveActiveBank(bank: nat) returns (ok: bool)
      modifies `first, `second, `saved, `powered, `faults
      ensures faults == old(faults) + if ok then 0 else 1
      ensures powered ==> old(powered)
      ensures !old(powered) ==> !ok && State() == old(State())
      ensures State() == old(State()).(saved := saved)
      ensures saved == old(saved) || saved == Some(bank)
      ensures ok ==> saved == Some(bank)
    {
      var rest: bool, done: bool;
      rest, done := *, *;
      if !powered {
        faults := faults + 1;
        return false;
      }
      powered := rest;
      ok := *;
      if !ok { faults := faults + 1; }
      if ok || done { saved := Some(bank); }
    }

    /** Power comes back; the cells are as they were left. */
    method PowerUp()
      modifies this`powered
      ensures powered
    {
      powered := true;
    }
  }

  lemma TornItself(cells: Bank, offset: nat, length: nat)
    requires offset + length <= BANK_SIZE
    ensures Torn(cells, cells, offset, length)
  {
    forall i | offset <= i < offset + length ensures Bits.And(cells[i], cells[i]) == cells[i] { Bits.AndSelf(cells[i]); }
  }

  const VALIDATE_CHUNK := 1024

  /** The volatile description of the active snapshot matches the bank it came from. */
  predicate ActiveOk(d: Durable, active: Selection, activeBank: int, activeInfo: Info) {
    match active
    case Nothing => activeBank == -1 && activeInfo == NO_INFO
    case Selected(bank, snapshot) => bank < 2 && activeBank == bank && activeInfo == snapshot.info && d.Holds(bank) == Some(snapshot)
  }

  lemma ActiveKept(before: Durable, after: Durable, active: Selection, activeBank: int, activeInfo: Info)
    requires ActiveOk(before, active, activeBank, activeInfo)
    requires after == before.With(Spare(active), after.At(Spare(active)))
    ensures ActiveOk(after, active, activeBank, activeInfo)
  {
  }

  lemma SpareOf(d: Durable, active: Selection, activeBank: int, activeInfo: Info)
    requires ActiveOk(d, active, activeBank, activeInfo)
    ensures (active.Selected? ==> active.bank < 2) && Spare(active) == if activeBank == 0 then 1 else 0
  {
  }

  /** A staging bank has blank marker cells and, unless a write failed, holds exactly the accepted octets in erased cells. */
  predicate StagingOk(cells: Bank, written: nat, staged: seq<byte>, clean: bool)
    requires written <= MAX_SIZE
  {
    Blank(cells, MARKER_OFFSET, BANK_SIZE) &&
    (clean ==> |staged| == written && cells[..written] == staged && Blank(cells, written, BANK_SIZE))
  }

  /** How a commit is answered: whether the staging is complete, whether the spare bank could not be read, the verdict on it,
      the two session checks, and whether saving its number or writing its marker failed. */
  function CommitResult(complete: bool, unread: bool, v: Verdict, first: bool, second: bool, failed: bool): StoreResult {
    if !complete then InvalidState
    else if unread then IoError
    else if v.FormatError? then BadFormat
    else if v.CrcError? then BadCrc
    else if !first then InvalidState
    else if failed then IoError
    else if !second then InvalidState else Ok
  }

  /** The volatile store state over the backend. Ghost fields: the active snapshot, the octets accepted by the open
      staging, whether each of its writes succeeded, and a snapshot whose marker write was started but not acknowledged. */
  class Store {
    const backend: Backend
    var initialized: bool
    var activeBank: int
    var activeInfo: Info
    var staging: bool
    var stagingBank: nat
    var expectedLength: nat
    var expectedCrc: u32
    var written: nat
    ghost var active: Selection
    ghost var staged: seq<byte>
    ghost var clean: bool
    ghost var attempted: Selection

    ghost predicate Valid()
      reads this, backend`first, backend`second, backend`saved
    {
      ActiveOk(backend.State(), active, activeBank, activeInfo) &&
      (staging ==> initialized && attempted.Nothing? && stagingBank == Spare(active) && written <= expectedLength &&
                   LengthAccepted(expectedLength) && StagingOk(backend.State().At(Spare(active)), written, staged, clean))
    }

    /** The next boot selects the active snapshot; or, after an unacknowledged marker write, the snapshot of that commit. */
    ghost predicate Standing()
      reads this, backend`first, backend`second, backend`saved
    {
      StandingAt(backend.State(), active, attempted)
    }

    ghost function Now(): (m: Moment)
      requires Valid()
      reads this, backend
    {
      var ready := staging && written == expectedLength &&
                   JudgeBank(backend.State().At(Spare(active)), expectedLength, expectedCrc).Accepted?;
      Moment(backend.State(), active, attempted, if ready then Some(Candidate()) else None, CanAdvance(), backend.lookupFaults,
             backend.firstUnread, backend.secondUnread)
    }

    constructor (backend: Backend)
      ensures this.backend == backend && Valid() && !initialized && active == Nothing && attempted == Nothing && !staging
    {
      this.backend := backend;
      initialized, activeBank, activeInfo, staging, stagingBank := false, -1, NO_INFO, false, 0;
      expectedLength, expectedCrc, written := 0, 0, 0;
      active, staged, clean, attempted := Nothing, [], false, Nothing;
    }

    method StreamCrc(bank: nat, offset: nat, length: nat) returns (crc: Option<u32>)
      requires bank < 2 && offset + length <= BANK_SIZE
      modifies backend`firstUnread, backend`secondUnread
      ensures backend.Unread(bank) >= old(backend.Unread(bank)) && backend.Unread(1 - bank) == old(backend.Unread(1 - bank))
      ensures crc.Some? <==> backend.Unread(bank) == old(backend.Unread(bank))
      ensures crc.Some? ==> crc.value == Crc32.Crc(0, backend.State().At(bank)[offset..offset + length])
    {
      hide Crc32.Crc;
      ghost var cells := backend.State().At(bank);
      var done, value := 0, 0;
      Crc32.EmptyIsSeed(0);
      assert cells[offset..offset] == [];
      while done < length
        invariant 0 <= done <= length
        invariant value == Crc32.Crc(0, cells[offset..offset + done])
        invariant backend.Unread(bank) == old(backend.Unread(bank)) && backend.Unread(1 - bank) == old(backend.Unread(1 - bank))
      {
        var chunk := if length - done < VALIDATE_CHUNK then length - done else VALIDATE_CHUNK;
        var ok, buffer := backend.Read(bank, offset + done, chunk);
        if !ok { return None; }
        Crc32.Incremental(0, cells[offset..offset + done], buffer);
        assert cells[offset..offset + done + chunk] == cells[offset..offset + done] + buffer;
        value := Crc32.Compute(value, buffer);
        done := done + chunk;
      }
      crc := Some(value);
    }

    /** One page record: None is a read failure, otherwise the kind of an accepted page or the refusal. */
    method CheckPage(bank: nat, page: nat) returns (r: Option<Option<byte>>)
      requires bank < 2 && page < MAX_PAGES
      modifies backend`firstUnread, backend`secondUnread
      ensures backend.Unread(bank) >= old(backend.Unread(bank)) && backend.Unread(1 - bank) == old(backend.Unread(1 - bank))
      ensures r.Some? <==> backend.Unread(bank) == old(backend.Unread(bank))
      ensures r.Some? ==> (r.value.Some? <==> PageAccepted(backend.State().At(bank), page))
      ensures r.Some? && r.value.Some? ==> r.value.value == PageKind(backend.State().At(bank), page)
    {
      ghost var cells := backend.State().At(bank);
      var ok, prefix := backend.Read(bank, PageOffset(page), 68);
      if !ok { return None; }
      assert prefix == cells[PageOffset(page)..PageOffset(page) + 68];
      if !PageValid(prefix) || (page == 0 && prefix[0] != 0) { return Some(None); }
      for color := 0 to 16
        invariant forall c | 0 <= c < color :: prefix[4 + c * 4 + 3] == 0xff
      {
        if prefix[4 + color * 4 + 3] != 0xff { return Some(None); }
      }
      r := Some(Some(prefix[0]));
    }

    /** The page loop: counts per kind, or a refusal at the first page that is not accepted. */
    method CountPages(bank: nat, pages: nat) returns (r: Option<Option<seq<nat>>>)
      requires bank < 2 && pages <= MAX_PAGES
      modifies backend`firstUnread, backend`secondUnread
      ensures backend.Unread(bank) >= old(backend.Unread(bank)) && backend.Unread(1 - bank) == old(backend.Unread(1 - bank))
      ensures r.Some? <==> backend.Unread(bank) == old(backend.Unread(bank))
      ensures r.Some? ==> (r.value.Some? <==> AllPagesAccepted(backend.State().At(bank), pages))
      ensures r.Some? && r.value.Some? ==> r.value.value == KindCounts(backend.State().At(bank), pages)
    {
      hide PageAccepted;
      ghost var cells := backend.State().At(bank);
      var counts: seq<nat> := [0, 0, 0, 0, 0];
      for page := 0 to pages
        invariant AllPagesAccepted(cells, page)
        invariant backend.Unread(bank) == old(backend.Unread(bank)) && backend.Unread(1 - bank) == old(backend.Unread(1 - bank))
        invariant |counts| == KIND_COUNT && forall k | 0 <= k < KIND_COUNT :: counts[k] == CountKind(cells, page, k)
      {
        var checked := CheckPage(bank, page);
        if checked.None? { return None; }
        if checked.value.None? { return Some(None); }
        var kind := checked.value.value;
        AcceptedKind(cells, page);
        counts := counts[kind := counts[kind] + 1];
      }
      r := Some(Some(counts));
    }

    /** The checksum over the whole package, then the one over its body. */
    method CheckCrcs(bank: nat, length: nat, crc: u32, bodyCrc: u32) returns (same: Option<bool>)
      requires bank < 2 && LengthAccepted(length)
      modifies backend`firstUnread, backend`secondUnread
      ensures backend.Unread(bank) >= old(backend.Unread(bank)) && backend.Unread(1 - bank) == old(backend.Unread(1 - bank))
      ensures same.Some? <==> backend.Unread(bank) == old(backend.Unread(bank))
      ensures var package := backend.State().At(bank)[..length];
              same.Some? ==> (same.value <==> Crc32.Crc(0, package) == crc && Crc32.Crc(0, package[HEADER_SIZE..]) == bodyCrc)
    {
      hide Crc32.Crc;
      ghost var cells := backend.State().At(bank);
      assert cells[0..0 + length] == cells[..length];
      assert cells[HEADER_SIZE..HEADER_SIZE + (length - HEADER_SIZE)] == cells[..length][HEADER_SIZE..];
      var computed := StreamCrc(bank, 0, length);
      if computed.None? { return None; }
      if computed.value != crc { return Some(false); }
      computed := StreamCrc(bank, HEADER_SIZE, length - HEADER_SIZE);
      if computed.None? { return None; }
      same := Some(computed.value == bodyCrc);
    }

    method ValidatePackage(bank: nat, length: nat, crc: u32) returns (v: Option<Verdict>)
      requires bank < 2
      modifies backend`firstUnread, backend`secondUnread
      ensures backend.Unread(bank) >= old(backend.Unread(bank)) && backend.Unread(1 - bank) == old(backend.Unread(1 - bank))
      ensures v.Some? <==> backend.Unread(bank) == old(backend.Unread(bank))
      ensures v.Some? ==> v.value == JudgeBank(backend.State().At(bank), length, crc)
    {
      hide Crc32.Crc, PageAccepted, CountKind, AllPagesAccepted, HeaderParse;
      if !LengthAccepted(length) { return Some(FormatError); }
      ghost var cells := backend.State().At(bank);
      ghost var package := cells[..length];
      var ok, header := backend.Read(bank, 0, HEADER_SIZE);
      if !ok { return None; }
      assert header == package[..HEADER_SIZE];
      var h := HeaderParse(header);
      if h.None? || h.value.totalSize != length { return Some(FormatError); }
      var same := CheckCrcs(bank, length, crc, h.value.bodyCrc);
      if same.None? { return None; }
      if !same.value { return Some(CrcError); }
      var counted := CountPages(bank, h.value.pageCount);
      if counted.None? { return None; }
      PrefixPages(cells, package, h.value.pageCount);
      if counted.value.None? { return Some(FormatError); }
      var counts := counted.value.value;
      if counts[0] != 1 { return Some(FormatError); }
      v := Some(Accepted(Info(true, h.value, counts, 0)));
    }

    /** What a bank commits, exactly if every read of it succeeded; a bank that cannot be read counts as empty. */
    method ValidateCommitted(bank: nat) returns (r: Option<Info>)
      requires bank < 2
      modifies backend`firstUnread, backend`secondUnread
      ensures backend.Unread(bank) >= old(backend.Unread(bank)) && backend.Unread(1 - bank) == old(backend.Unread(1 - bank))
      ensures var held := backend.State().Holds(bank);
              r == if held.Some? && backend.Unread(bank) == old(backend.Unread(bank)) then Some(held.value.info) else None
    {
      hide Judge;
      var ok, marker := backend.Read(bank, MARKER_OFFSET, MARKER_SIZE);
      if !ok { return None; }
      assert marker == MarkerOf(backend.State().At(bank));
      var m := DecodeMarker(marker, bank);
      if m.None? { return None; }
      var v := ValidatePackage(bank, m.value.length, m.value.crc);
      if v.None? { return None; }
      r := if v.value.Accepted? then Some(v.value.info.(revision := m.value.generation)) else None;
    }

    /** The saved number wins when it designates a valid bank; otherwise the newest valid bank is selected and saved. */
    method SelectBank(first: Option<Info>, second: Option<Info>, ghost a: Option<Snapshot>, ghost b: Option<Snapshot>) returns (selected: int)
      requires first == (if a.Some? then Some(a.value.info) else None) && second == if b.Some? then Some(b.value.info) else None
      modifies backend`first, backend`second, backend`saved, backend`powered, backend`faults, backend`lookupFaults
      ensures old(backend.lookupFaults) <= backend.lookupFaults && (backend.powered ==> old(backend.powered))
      ensures selected == Select(a, b, if backend.lookupFaults == old(backend.lookupFaults) then old(backend.saved) else None)
      ensures backend.State() == old(backend.State()).(saved := backend.saved)
      ensures backend.saved == old(backend.saved) || (selected >= 0 && backend.saved == Some(selected))
    {
      var saved := backend.LoadActiveBank();
      selected := -1;
      if saved == Some(0) && first.Some? {
        selected := 0;
      } else if saved == Some(1) && second.Some? {
        selected := 1;
      } else {
        if first.Some? { selected := 0; }
        if second.Some? && (selected == -1 || second.value.revision > first.value.revision) { selected := 1; }
        if selected != -1 { var ok := backend.SaveActiveBank(selected); }
      }
    }

    /** Boot: both banks are validated, the saved number wins when it designates a valid bank, and otherwise the newest
        valid bank is selected and saved. */
    method Init()
      modifies this, backend
      ensures Valid() && initialized && !staging && attempted.Nothing? && (backend.powered ==> old(backend.powered))
      ensures backend.firstUnread >= old(backend.firstUnread) && backend.secondUnread >= old(backend.secondUnread)
      ensures backend.lookupFaults >= old(backend.lookupFaults)
      ensures active == BootOver(old(backend.State()), backend.lookupFaults == old(backend.lookupFaults),
                                 backend.firstUnread == old(backend.firstUnread), backend.secondUnread == old(backend.secondUnread))
      ensures backend.State() == old(backend.State()).(saved := backend.saved)
      ensures backend.saved == old(backend.saved) || (active.Selected? && backend.saved == Some(active.bank))
    {
      hide Committed, Judge, Select;
      ghost var before := backend.State();
      var first := ValidateCommitted(0);
      var second := ValidateCommitted(1);
      ghost var a := if first.Some? then before.Holds(0) else None;
      ghost var b := if second.Some? then before.Holds(1) else None;
      var selected := SelectBank(first, second, a, b);
      activeBank := selected;
      activeInfo := if selected == 0 then first.value else if selected == 1 then second.value else NO_INFO;
      active := if selected == -1 then Nothing else Selected(selected, before.Holds(selected).value);
      staging, initialized, attempted := false, true, Nothing;
    }

    /** Erasing the spare bank, whatever becomes of it, changes neither the active snapshot nor what the next boot selects. */
    method EraseSpare(bank: nat) returns (ok: bool)
      requires Valid() && !staging && bank == Spare(active)
      modifies `attempted, backend`first, backend`second, backend`saved, backend`powered, backend`faults
      ensures backend.faults == old(backend.faults) + if ok then 0 else 1
      ensures backend.State() == old(backend.State()).With(bank, backend.State().At(bank))
      ensures Valid() && (old(Standing()) ==> Standing()) && (backend.powered ==> old(backend.powered))
      ensures attempted == if ok then Nothing else old(attempted)
      ensures ok ==> StagingOk(backend.State().At(bank), 0, [], true)
    {
      hide Committed, StandingAt;
      ghost var before := backend.State();
      ok := backend.EraseBank(bank);
      if old(Standing()) { EraseKeepsRecovery(before, backend.State(), active, attempted, ok); }
      if ok { attempted := Nothing; }
    }

    /** The second critical section of a begin: the erased bank becomes the staging. */
    method OpenStaging(bank: nat, length: nat, crc: u32)
      requires Valid() && initialized && attempted.Nothing? && bank == Spare(active) && LengthAccepted(length)
      requires StagingOk(backend.State().At(bank), 0, [], true)
      modifies `staging, `stagingBank, `expectedLength, `expectedCrc, `written, `staged, `clean
      ensures Valid() && (old(Standing()) ==> Standing())
      ensures staging && expectedLength == length && expectedCrc == crc && written == 0 && staged == [] && clean
    {
      hide StandingAt, ActiveOk, StagingOk;
      staging, stagingBank, expectedLength, expectedCrc, written := true, bank, length, crc, 0;
      staged, clean := [], true;
    }

    /** Opens a staging of the spare bank. */
    method Begin(length: nat, crc: u32) returns (result: StoreResult)
      requires Valid()
      modifies `staging, `stagingBank, `expectedLength, `expectedCrc, `written, `staged, `clean, `attempted
      modifies backend`first, backend`second, backend`saved, backend`powered, backend`faults
      ensures result == if !initialized then InvalidState else if !LengthAccepted(length) then NoSpace
                        else if backend.faults > old(backend.faults) then IoError else Ok
      ensures backend.State() == old(backend.State()).With(Spare(active), backend.State().At(Spare(active)))
      ensures Valid() && (old(Standing()) ==> Standing()) && (backend.powered ==> old(backend.powered))
      ensures attempted == if result == Ok then Nothing else old(attempted)
      ensures result == InvalidState || result == NoSpace ==> backend.State() == old(backend.State()) && staging == old(staging)
      ensures initialized && LengthAccepted(length) ==> (staging <==> result == Ok)
      ensures result == Ok ==> expectedLength == length && expectedCrc == crc && written == 0 && staged == [] && clean
    {
      hide StandingAt, ActiveOk, StagingOk;
      if !initialized { return InvalidState; }
      if !LengthAccepted(length) { return NoSpace; }
      SpareOf(backend.State(), active, activeBank, activeInfo);
      var bank := if activeBank == 0 then 1 else 0;
      staging := false;
      var ok := EraseSpare(bank);
      if !ok { return IoError; }
      OpenStaging(bank, length, crc);
      result := Ok;
    }

    /** Appends to the staging; an I/O failure leaves the offset where it was. */
    method Write(offset: nat, data: seq<byte>) returns (result: StoreResult)
      requires Valid()
      modifies `written, `staged, `clean, backend`first, backend`second, backend`saved, backend`powered, backend`faults
      ensures backend.State() == old(backend.State()).With(Spare(active), backend.State().At(Spare(active)))
      ensures Valid() && (old(Standing()) ==> Standing()) && (backend.powered ==> old(backend.powered))
      ensures result == InvalidArg <==> data == [] || (staging && (offset != old(written) || |data| > expectedLength - old(written)))
      ensures result == InvalidState <==> data != [] && !staging
      ensures result == InvalidArg || result == InvalidState ==>
                backend.State() == old(backend.State()) && written == old(written) && staged == old(staged) && clean == old(clean)
      ensures result == Ok || result == IoError || result == InvalidArg || result == InvalidState
      ensures result == IoError <==> backend.faults > old(backend.faults)
      ensures result == Ok ==> written == old(written) + |data| && staged == old(staged) + data && clean == old(clean)
      ensures result == IoError ==> written == old(written) && staged == old(staged) && !clean
    {
      hide StandingAt, ActiveOk, Blank, Program, Torn;
      if data == [] { return InvalidArg; }
      if !staging { return InvalidState; }
      if offset != written || |data| > expectedLength - written { return InvalidArg; }
      ghost var before := backend.State();
      ghost var cells := before.At(stagingBank);
      var ok := backend.Write(stagingBank, offset, data);
      ActiveKept(before, backend.State(), active, activeBank, activeInfo);
      StagedWrite(before, backend.State(), stagingBank, offset, data);
      if old(Standing()) { StagedKeepsRecovery(before, backend.State(), active, attempted); }
      if !ok { clean := false; return IoError; }
      if clean { AppendedBlank(cells, offset, data); }
      written := written + |data|;
      staged := staged + data;
      result := Ok;
    }

    /** The package a commit of the open staging would publish. */
    ghost function Candidate(): Snapshot
      requires Valid() && staging
      reads this, backend`first, backend`second, backend`saved
    {
      CandidateOf(backend.State().At(Spare(active)), expectedLength, expectedCrc, NextGeneration(activeInfo.revision))
    }

    /** A revision from which the next generation is newer; the last one before the 32-bit wrap is not. */
    ghost predicate CanAdvance()
      reads this
    {
      active.Selected? ==> activeInfo.revision != 0xffff_ffff
    }

    /** The single durable commit point. A failure that is reported after the marker went down leaves the commit in doubt. */
    method WriteMarker(generation: u32) returns (ok: bool)
      requires Valid() && staging && generation == NextGeneration(activeInfo.revision) && backend.saved == Some(Spare(active))
      requires JudgeBank(backend.State().At(Spare(active)), expectedLength, expectedCrc).Accepted?
      modifies `staging, `attempted, backend`first, backend`second, backend`saved, backend`powered, backend`faults
      ensures backend.faults == old(backend.faults) + if ok then 0 else 1
      ensures Valid() && !staging && backend.saved == old(backend.saved) && (backend.powered ==> old(backend.powered))
      ensures ok ==> attempted.Nothing? && backend.State().Holds(Spare(active)) == Some(old(Candidate()))
      ensures !ok ==> attempted == Selected(Spare(active), old(Candidate()))
      ensures !ok && CanAdvance() && old(Standing()) ==> Standing()
      ensures ok && CanAdvance() && old(Standing()) ==> RecoversTo(backend.State(), Selected(Spare(active), old(Candidate())))
    {
      hide ActiveOk, StandingAt, JudgeBank, EncodeMarker, Committed, CandidateOf, RecoversTo, CutShort, Program, Torn, Blank;
      ghost var before, m := backend.State(), Marker(generation, expectedLength, expectedCrc);
      SpareOf(before, active, activeBank, activeInfo);
      var marker := EncodeMarker(stagingBank, Marker(generation, expectedLength, expectedCrc));
      ok := backend.Write(stagingBank, MARKER_OFFSET, marker);
      ActiveKept(before, backend.State(), active, activeBank, activeInfo);
      MarkerOutcome(before, backend.State(), active, activeBank, activeInfo, m, ok);
      staging := false;
      attempted := if ok then Nothing else Selected(stagingBank, CandidateOf(before.At(stagingBank), expectedLength, expectedCrc, generation));
    }

    /** Designating the still unmarked spare bank: a boot in this interval falls back to the active bank. */
    method SaveSpare() returns (ok: bool)
      requires Valid() && staging
      modifies backend`first, backend`second, backend`saved, backend`powered, backend`faults
      ensures backend.faults == old(backend.faults) + if ok then 0 else 1
      ensures Valid() && (old(Standing()) ==> Standing()) && (backend.powered ==> old(backend.powered))
      ensures backend.State() == old(backend.State()).(saved := backend.saved) && (ok ==> backend.saved == Some(Spare(active)))
    {
      hide ActiveOk, StandingAt, Committed;
      ghost var before := backend.State();
      ok := backend.SaveActiveBank(stagingBank);
      SavedKept(before, backend.State(), active, activeBank, activeInfo, written, staged, clean);
    }

    /** Validation, the two guard checks, the saved number, the marker. Only a marker write that was started can make a
        later boot select the new package, and only the whole validated one. */
    method CommitGuarded(first: bool, second: bool) returns (result: StoreResult)
      requires Valid()
      modifies `staging, `activeBank, `activeInfo, `active, `attempted, backend
      ensures Valid() && (backend.powered ==> old(backend.powered))
      ensures old(Standing()) && old(CanAdvance()) ==> Standing()
      ensures backend.firstUnread >= old(backend.firstUnread) && backend.secondUnread >= old(backend.secondUnread)
      ensures result == CommitResult(old(staging && written == expectedLength), backend.Unread(old(Spare(active))) > old(backend.Unread(Spare(active))),
                                     old(JudgeBank(backend.State().At(Spare(active)), expectedLength, expectedCrc)), first, second,
                                     backend.faults > old(backend.faults))
      ensures !old(staging) || old(written) != old(expectedLength) ==>
                result == InvalidState && backend.State() == old(backend.State()) && staging == old(staging)
      ensures old(staging) && old(written) == old(expectedLength) ==> !staging
      ensures result == Ok ==> active == Selected(old(Spare(active)), old(Candidate())) && attempted.Nothing?
      ensures result == Ok || attempted != old(attempted) ==>
                old(staging) && JudgeBank(old(backend.State().At(Spare(active))), old(expectedLength), old(expectedCrc)).Accepted?
      ensures result != Ok ==> active == old(active) && activeInfo == old(activeInfo)
      ensures result != Ok ==> attempted == old(attempted) ||
                               (first && second && attempted == Selected(Spare(active), old(Candidate())))
    {
      hide ActiveOk, StandingAt, JudgeBank, Committed, RecoversTo, StagingOk;
      if !staging || written != expectedLength { return InvalidState; }
      var v := ValidatePackage(stagingBank, expectedLength, expectedCrc);
      if v.None? || !v.value.Accepted? || !first {
        staging := false;
        return if v.None? then IoError else if v.value.FormatError? then BadFormat else if v.value.CrcError? then BadCrc else InvalidState;
      }
      var generation := NextGeneration(activeInfo.revision);
      var ok := SaveSpare();
      if !ok || !second {
        staging := false;
        return if !ok then IoError else InvalidState;
      }
      ok := WriteMarker(generation);
      if !ok { return IoError; }
      Publish(v.value.info.(revision := generation), old(Candidate()));
      result := Ok;
    }

    /** When no write of the staging failed, the candidate package is exactly the accepted octets, and it is published only
        if it passes validation against the announced length and checksum. */
    lemma CandidateIsStaged()
      requires Valid() && staging && clean && written == expectedLength
      ensures Candidate().package == staged && |staged| == expectedLength
      ensures JudgeBank(backend.State().At(Spare(active)), expectedLength, expectedCrc) == Judge(staged, expectedCrc)
    {
      hide Judge;
    }

    /** The final critical section: the marked bank becomes the active snapshot. */
    method Publish(info: Info, ghost snapshot: Snapshot)
      requires Valid() && !staging && attempted.Nothing? && stagingBank == Spare(active) && info == snapshot.info
      requires backend.State().Holds(Spare(active)) == Some(snapshot)
      modifies `activeBank, `activeInfo, `active
      ensures Valid() && active == Selected(old(Spare(active)), snapshot)
      ensures RecoversTo(backend.State(), active) ==> Standing()
    {
      hide Committed, RecoversTo;
      activeBank, activeInfo := stagingBank, info;
      active := Selected(stagingBank, snapshot);
    }

    method GetInfo() returns (result: StoreResult, info: Info)
      requires Valid()
      ensures result == (if initialized then Ok else InvalidState)
      ensures result == Ok ==> info == if active.Selected? then active.snapshot.info else NO_INFO
    {
      result, info := if initialized then Ok else InvalidState, activeInfo;
    }

    lemma ActiveShape()
      requires Valid()
      ensures activeBank < 0 <==> active.Nothing?
      ensures active.Selected? ==>
                var s := active.snapshot;
                active.bank == activeBank < 2 && s.info == activeInfo && s.package <= backend.State().At(activeBank) &&
                s.info.header.pageCount <= MAX_PAGES && |s.package| == PageOffset(s.info.header.pageCount) &&
                s.info.counts == KindCounts(s.package, s.info.header.pageCount)
    {
      hide Committed;
      if active.Selected? { SnapshotShape(backend.State().At(active.bank), active.bank); }
    }

    /** The page loop of a read: counts down the matching kinds and copies the record it stops at. */
    method FindPage(bank: nat, ghost s: Snapshot, pages: nat, kind: nat, ordinal: nat)
      returns (result: StoreResult, found: Option<(seq<byte>, seq<byte>)>)
      requires bank < 2 && s.package <= backend.State().At(bank) && |s.package| == PageOffset(pages)
      requires s.info.header.pageCount == pages
      modifies backend`firstUnread, backend`secondUnread
      ensures backend.Unread(bank) >= old(backend.Unread(bank)) && backend.Unread(1 - bank) == old(backend.Unread(1 - bank))
      ensures result == IoError <==> backend.Unread(bank) > old(backend.Unread(bank))
      ensures result == Ok || result == NotFound || result == IoError
      ensures result == NotFound ==> ordinal >= CountKind(s.package, pages, kind)
      ensures result == Ok ==> ordinal < CountKind(s.package, pages, kind)
      ensures result == Ok <==> found.Some?
      ensures result == Ok ==> PageAt(s, kind, ordinal, found.value.0, found.value.1)
    {
      hide PageAt, PageOffset, HoldsPages;
      ghost var cells := backend.State().At(bank);
      AllHeld(s.package, pages);
      var left := ordinal;
      for page := 0 to pages
        invariant CountKind(s.package, page, kind) + left == ordinal
        invariant backend.Unread(bank) == old(backend.Unread(bank)) && backend.Unread(1 - bank) == old(backend.Unread(1 - bank))
      {
        CountWithin(s.package, page + 1, pages, kind);
        RecordAt(cells, s.package, page, pages);
        var ok, metadata := backend.Read(bank, PageOffset(page), 4);
        if !ok { return IoError, None; }
        if metadata[0] != kind { continue; }
        if left != 0 { left := left - 1; continue; }
        var image;
        ok, image := backend.Read(bank, PageOffset(page) + 4, PAGE_IMAGE_SIZE);
        if !ok { return IoError, None; }
        PageFound(s, kind, ordinal, page);
        return Ok, Some((metadata, image));
      }
      result, found := NotFound, None;
    }

    /** The ordinal-th page of a kind in the active snapshot, checked against the revision the caller expects. */
    method ReadPage(expected: Option<u32>, kind: nat, ordinal: nat, metadataIn: seq<byte>, imageIn: seq<byte>)
      returns (result: StoreResult, metadata: seq<byte>, image: seq<byte>)
      requires Valid()
      modifies backend`firstUnread, backend`secondUnread
      ensures Valid()
      ensures result == IoError <==> backend.Unread(activeBank) > old(backend.Unread(activeBank))
      ensures kind >= KIND_COUNT ==> result == InvalidArg
      ensures kind < KIND_COUNT && !initialized ==> result == InvalidState
      ensures kind < KIND_COUNT && initialized && expected.Some? && expected.value != activeInfo.revision ==> result == StaleSnapshot
      ensures kind < KIND_COUNT && initialized && (expected.None? || expected.value == activeInfo.revision) ==>
                match active
                case Nothing => result == NotFound
                case Selected(_, s) =>
                  (result == NotFound ==> ordinal >= s.info.counts[kind]) && (result == Ok ==> ordinal < s.info.counts[kind]) &&
                  (result == Ok || result == NotFound || result == IoError) &&
                  (result == Ok ==> PageAt(s, kind, ordinal, metadata, image))
      ensures result != Ok ==> metadata == metadataIn && (result != IoError ==> image == imageIn)
    {
      hide Committed, ActiveOk, StagingOk, PageAt, CountKind;
      metadata, image := metadataIn, imageIn;
      if kind >= KIND_COUNT { return InvalidArg, metadata, image; }
      if !initialized { return InvalidState, metadata, image; }
      if expected.Some? && expected.value != activeInfo.revision { return StaleSnapshot, metadata, image; }
      ActiveShape();
      if activeBank < 0 { return NotFound, metadata, image; }
      var found: Option<(seq<byte>, seq<byte>)>;
      result, found := FindPage(activeBank, active.snapshot, activeInfo.header.pageCount, kind, ordinal);
      if found.Some? { metadata, image := found.value.0, found.value.1; }
      if result == IoError { image := *; }
    }

    method Abort()
      requires Valid()
      modifies `staging, `expectedLength, `expectedCrc, `written
      ensures Valid() && (old(Standing()) ==> Standing())
      ensures initialized ==> !staging
    {
      hide ActiveOk, StandingAt;
      if !initialized { return; }
      staging, expectedLength, expectedCrc, written := false, 0, 0, 0;
    }
  }

  lemma EraseKeepsRecovery(before: Durable, after: Durable, active: Selection, attempted: Selection, ok: bool)
    requires StandingAt(before, active, attempted) && after == before.With(Spare(active), after.At(Spare(active)))
    requires CutShort(before.At(Spare(active)), after.At(Spare(active)), Erase(BANK_SIZE), Spare(active))
    requires ok ==> after.At(Spare(active)) == Erase(BANK_SIZE)
    ensures StandingAt(after, active, if ok then Nothing else attempted)
  {
    hide Committed;
    BlankMarkerHoldsNothing(Erase(BANK_SIZE), Spare(active));
    if after.Holds(Spare(active)).None? {
      SpareBankEmpty(after, active);
    } else {
      assert after == before;
    }
  }

  lemma StagedKeepsRecovery(before: Durable, after: Durable, active: Selection, attempted: Selection)
    requires StandingAt(before, active, attempted) && after == before.With(Spare(active), after.At(Spare(active)))
    requires after.Holds(Spare(active)).None?
    ensures StandingAt(after, active, attempted)
  {
    hide Committed;
    SpareBankEmpty(after, active);
  }

  /** Programming below the marker of a bank whose marker cells are blank leaves them blank, finished or not. */
  lemma StagedWrite(before: Durable, after: Durable, bank: nat, offset: nat, data: seq<byte>)
    requires bank < 2 && offset + |data| <= MARKER_OFFSET && Blank(before.At(bank), MARKER_OFFSET, BANK_SIZE)
    requires Torn(before.At(bank), after.At(bank), offset, |data|) || after.At(bank) == Program(before.At(bank), offset, data)
    ensures Blank(after.At(bank), MARKER_OFFSET, BANK_SIZE) && after.Holds(bank).None? && before.Holds(bank).None?
  {
    hide Committed;
    BlankMarkerHoldsNothing(before.At(bank), bank);
    BlankMarkerHoldsNothing(after.At(bank), bank);
  }

  lemma AppendedBlank(cells: Bank, offset: nat, data: seq<byte>)
    requires offset + |data| <= BANK_SIZE && Blank(cells, offset, BANK_SIZE)
    ensures var after := Program(cells, offset, data);
            after[..offset + |data|] == cells[..offset] + data && Blank(after, offset + |data|, BANK_SIZE)
  {
    ProgramBlank(cells, offset, data);
  }

  function CandidateOf(cells: Bank, length: nat, crc: u32, generation: u32): Snapshot
    requires length <= MAX_SIZE
  {
    var v := JudgeBank(cells, length, crc);
    Snapshot(cells[..length], if v.Accepted? then v.info.(revision := generation) else NO_INFO)
  }

  lemma MarkerOutcome(before: Durable, after: Durable, active: Selection, activeBank: int, activeInfo: Info, m: Marker, ok: bool)
    requires ActiveOk(before, active, activeBank, activeInfo) && before.saved == Some(Spare(active)) && LengthAccepted(m.length)
    requires after == before.With(Spare(active), after.At(Spare(active)))
    requires Blank(before.At(Spare(active)), MARKER_OFFSET, BANK_SIZE) && m.generation == NextGeneration(activeInfo.revision)
    requires JudgeBank(before.At(Spare(active)), m.length, m.crc).Accepted?
    requires var done := Program(before.At(Spare(active)), MARKER_OFFSET, EncodeMarker(Spare(active), m));
             CutShort(before.At(Spare(active)), after.At(Spare(active)), done, Spare(active)) && (ok ==> after.At(Spare(active)) == done)
    ensures var spare := Spare(active);
            var cand := CandidateOf(before.At(spare), m.length, m.crc, m.generation);
            var advance := active.Selected? ==> activeInfo.revision != 0xffff_ffff;
            (ok ==> after.Holds(spare) == Some(cand)) &&
            (advance && StandingAt(before, active, Nothing) ==>
               (ok ==> RecoversTo(after, Selected(spare, cand))) && (!ok ==> StandingAt(after, active, Selected(spare, cand))))
  {
    hide Committed, JudgeBank, EncodeMarker;
    var spare := Spare(active);
    MarkerCommits(before.At(spare), spare, m);
    BlankMarkerHoldsNothing(before.At(spare), spare);
    if after.Holds(spare).None? {
      if Present(before, active) { SpareBankEmpty(after, active); }
    } else {
      CommitRecovers(after, spare);
    }
  }

  lemma SavedKept(before: Durable, after: Durable, active: Selection, activeBank: int, activeInfo: Info,
                  written: nat, staged: seq<byte>, clean: bool)
    requires ActiveOk(before, active, activeBank, activeInfo) && after == before.(saved := after.saved)
    requires written <= MAX_SIZE && StagingOk(before.At(Spare(active)), written, staged, clean)
    ensures ActiveOk(after, active, activeBank, activeInfo)
    ensures StandingAt(before, active, Nothing) ==> StandingAt(after, active, Nothing)
  {
    hide Committed;
    BlankMarkerHoldsNothing(before.At(Spare(active)), Spare(active));
    if StandingAt(before, active, Nothing) { SpareBankEmpty(after, active); }
  }

  /** Page `page` is the ordinal-th (from zero) of its kind. */
  predicate IsNth(p: seq<byte>, pages: nat, kind: nat, ordinal: nat, page: nat)
    requires HoldsPages(p, pages)
  {
    page < pages && PageKind(p, page) == kind && CountKind(p, page, kind) == ordinal
  }

  ghost predicate PageAt(s: Snapshot, kind: nat, ordinal: nat, metadata: seq<byte>, image: seq<byte>) {
    HoldsPages(s.package, s.info.header.pageCount) &&
    exists page ::
      IsNth(s.package, s.info.header.pageCount, kind, ordinal, page) &&
      metadata == s.package[PageOffset(page)..PageOffset(page) + 4] &&
      image == s.package[PageOffset(page) + 4..PageOffset(page) + PAGE_RECORD_SIZE]
  }

  lemma AllHeld(package: seq<byte>, pages: nat)
    requires |package| == PageOffset(pages)
    ensures forall page: nat | page <= pages :: HoldsPages(package, page)
  {
  }

  lemma RecordAt(cells: Bank, package: seq<byte>, page: nat, pages: nat)
    requires package <= cells && |package| == PageOffset(pages) && page < pages
    ensures PageOffset(page) + PAGE_RECORD_SIZE <= |package|
    ensures var from := PageOffset(page);
            cells[from..from + 4] == package[from..from + 4] && package[from..from + 4][0] == PageKind(package, page) &&
            cells[from + 4..from + 4 + PAGE_IMAGE_SIZE] == package[from + 4..from + PAGE_RECORD_SIZE]
  {
  }

  lemma PageFound(s: Snapshot, kind: nat, ordinal: nat, page: nat)
    requires HoldsPages(s.package, s.info.header.pageCount) && IsNth(s.package, s.info.header.pageCount, kind, ordinal, page)
    ensures PageAt(s, kind, ordinal, s.package[PageOffset(page)..PageOffset(page) + 4],
                   s.package[PageOffset(page) + 4..PageOffset(page) + PAGE_RECORD_SIZE])
  {
  }

  /** The ordinal-th page of a kind is unique, so a successful read determines its octets. */
  lemma {:induction false} NthUnique(p: seq<byte>, pages: nat, kind: nat, ordinal: nat, a: nat, b: nat)
    requires HoldsPages(p, pages) && IsNth(p, pages, kind, ordinal, a) && IsNth(p, pages, kind, ordinal, b)
    ensures a == b
  {
    if a < b { CountWithin(p, a + 1, b, kind); }
    if b < a { CountWithin(p, b + 1, a, kind); }
  }

  lemma {:induction false} CountWithin(p: seq<byte>, few: nat, many: nat, kind: nat)
    requires few <= many && HoldsPages(p, many)
    ensures CountKind(p, few, kind) <= CountKind(p, many, kind)
  {
    if few < many { CountWithin(p, few, many - 1, kind); }
  }

  lemma SnapshotShape(cells: Bank, bank: nat)
    requires Committed(cells, bank).Some?
    ensures var s := Committed(cells, bank).value;
            s.package <= cells && s.info.header.pageCount <= MAX_PAGES && |s.package| == PageOffset(s.info.header.pageCount) &&
            s.info.counts == KindCounts(s.package, s.info.header.pageCount)
  {
    hide Crc32.Crc, PageAccepted, CountKind, DecodeMarker;
  }

  lemma BootKeeps(d: Durable, saved: Option<nat>, s: Selection)
    requires RecoversTo(d, s) && (saved == d.saved || (s.Selected? && saved == Some(s.bank)))
    ensures RecoversTo(d.(saved := saved), s) && Present(d.(saved := saved), s)
  {
    hide Committed;
    RecoveredIsPresent(d, s);
  }

  lemma AcceptedKind(p: seq<byte>, page: nat)
    requires HoldsPages(p, page + 1) && PageAccepted(p, page)
    ensures PageKind(p, page) < KIND_COUNT
  {
    assert PageKind(p, page) == p[PageOffset(page)..PageOffset(page) + 68][0];
  }

  /** Page checks look at the package only, not at the rest of the bank. */
  lemma {:induction false} PrefixPages(cells: seq<byte>, package: seq<byte>, pages: nat)
    requires package <= cells && HoldsPages(package, pages)
    ensures AllPagesAccepted(cells, pages) <==> AllPagesAccepted(package, pages)
    ensures KindCounts(cells, pages) == KindCounts(package, pages)
  {
    forall page | 0 <= page < pages ensures PageAccepted(cells, page) <==> PageAccepted(package, page) {
      assert cells[PageOffset(page)..PageOffset(page) + 68] == package[PageOffset(page)..PageOffset(page) + 68];
    }
    forall k: nat | k < KIND_COUNT ensures CountKind(cells, pages, k) == CountKind(package, pages, k) {
      PrefixCounts(cells, package, pages, k);
    }
  }

  lemma {:induction false} PrefixCounts(cells: seq<byte>, package: seq<byte>, pages: nat, kind: nat)
    requires package <= cells && HoldsPages(package, pages)
    ensures CountKind(cells, pages, kind) == CountKind(package, pages, kind)
  {
    if pages > 0 { PrefixCounts(cells, package, pages - 1, kind); }
  }

  /** What a boot selects when the saved number can be looked up or not, and each bank can be read or not. */
  function BootOver(d: Durable, lookedUp: bool, firstRead: bool, secondRead: bool): Selection {
    var bank := Select(if firstRead then d.Holds(0) else None, if secondRead then d.Holds(1) else None, if lookedUp then d.saved else None);
    if bank == -1 then Nothing else Selected(bank, d.Holds(bank).value)
  }

  predicate ReadsIt(s: Selection, firstRead: bool, secondRead: bool) { s.Selected? ==> if s.bank == 0 then firstRead else secondRead }

  /** Exactly when a boot selects what every boot should: its bank can be read. */
  lemma BootSelects(d: Durable, s: Selection, lookedUp: bool, firstRead: bool, secondRead: bool)
    requires RecoversTo(d, s)
    ensures BootOver(d, lookedUp, firstRead, secondRead) == s <==> ReadsIt(s, firstRead, secondRead)
  {
    hide Committed;
  }

  /** And if it cannot be read, the other bank's older snapshot is back, for good: the boot saves that bank's number, and from
      then on every boot that can look it up selects it again, even once both banks can be read. */
  lemma UnreadBankRevertsTo(d: Durable, s: Selection, lookedUp: bool)
    requires s.Selected? && s.bank < 2 && RecoversTo(d, s) && d.Holds(1 - s.bank).Some?
    ensures var earlier := Selected(1 - s.bank, d.Holds(1 - s.bank).value);
            BootOver(d, lookedUp, s.bank != 0, s.bank != 1) == earlier != s &&
            Boot(d.(saved := Some(earlier.bank)), Some(earlier.bank)) == earlier
  {
    hide Committed;
  }

  /** A bank erased, filled with a package and marked. */
  function Stored(package: seq<byte>, bank: byte, m: Marker): Bank
    requires |package| == m.length <= MAX_SIZE
  {
    Program(Program(Erase(BANK_SIZE), 0, package), MARKER_OFFSET, EncodeMarker(bank, m))
  }

  lemma StoredHolds(package: seq<byte>, bank: byte, m: Marker)
    requires |package| == m.length && LengthAccepted(m.length) && Judge(package, m.crc).Accepted? && m.generation != 0
    ensures Committed(Stored(package, bank, m), bank) == Some(Snapshot(package, Judge(package, m.crc).info.(revision := m.generation)))
  {
    hide Judge, EncodeMarker, Committed;
    var cells := Program(Erase(BANK_SIZE), 0, package);
    ProgramBlank(Erase(BANK_SIZE), 0, package);
    assert cells[..m.length] == package;
    MarkerCommits(cells, bank, m);
  }

  /** The input on which it happens: any two good packages, one after the other, and one unreadable boot. */
  lemma OldSnapshotReturns(p: seq<byte>, a: u32, q: seq<byte>, b: u32)
    requires LengthAccepted(|p|) && LengthAccepted(|q|) && Judge(p, a).Accepted? && Judge(q, b).Accepted?
    ensures var d := Durable(Stored(p, 0, Marker(1, |p|, a)), Stored(q, 1, Marker(2, |q|, b)), Some(1));
            RecoversTo(d, Selected(1, Snapshot(q, Judge(q, b).info.(revision := 2)))) &&
            BootOver(d, true, true, false) == Selected(0, Snapshot(p, Judge(p, a).info.(revision := 1)))
  {
    hide Judge, EncodeMarker, Committed, Stored;
    StoredHolds(p, 0, Marker(1, |p|, a));
    StoredHolds(q, 1, Marker(2, |q|, b));
  }

  /** Power comes back after being lost in the middle of anything: the volatile state is gone and the store boots. If the
      bank of the snapshot to recover can be read, it selects the snapshot that was active or, only if a marker write had
      been started, that whole validated package. */
  method PowerCycle(store: Store)
    requires store.Valid()
    modifies store, store.backend
    ensures store.Valid() && store.initialized && !store.staging && store.attempted.Nothing?
    ensures BootStep(old(store.Now()), store.Now())
  {
    hide StandingAt, ActiveOk, StagingOk;
    store.backend.PowerUp();
    store.initialized, store.staging := false, false;
    store.Init();
  }

  datatype Operation = Begin(length: nat, crc: u32) | Write(offset: nat, data: seq<byte>) | Commit(first: bool, second: bool)
                     | Abort | PowerLoss

  /** What a history is judged by, between any two operations: what is durable, what is active or in doubt, the package a
      commit would publish, whether its generation would be newer, and how often flash could not be read so far. */
  datatype Moment = Moment(durable: Durable, active: Selection, attempted: Selection, candidate: Option<Snapshot>, advance: bool,
                           lookupFaults: nat, firstUnread: nat, secondUnread: nat) {
    predicate Standing() { StandingAt(durable, active, attempted) }
  }

  predicate BootStep(m: Moment, n: Moment) {
    n.active == BootOver(m.durable, n.lookupFaults == m.lookupFaults, n.firstUnread == m.firstUnread, n.secondUnread == m.secondUnread) &&
    n.attempted.Nothing? && n.durable == m.durable.(saved := n.durable.saved) &&
    (n.durable.saved == m.durable.saved || (n.active.Selected? && n.durable.saved == Some(n.active.bank)))
  }

  predicate StepOk(m: Moment, op: Operation, n: Moment) {
    match op
    case PowerLoss => BootStep(m, n)
    case Commit(first, second) =>
      (m.Standing() && m.advance ==> n.Standing()) &&
      if n.active == m.active then
        n.attempted == m.attempted || (first && second && n.attempted.Selected? && m.candidate == Some(n.attempted.snapshot))
      else first && second && n.active.Selected? && m.candidate == Some(n.active.snapshot) && n.attempted.Nothing?
    case _ => (m.Standing() ==> n.Standing()) && n.active == m.active && (n.attempted == m.attempted || n.attempted.Nothing?)
  }

  predicate Recorded(history: seq<Operation>, run: seq<Moment>) {
    |run| == |history| + 1 && forall i | 0 <= i < |history| :: StepOk(run[i], history[i], run[i + 1])
  }

  method Execute(store: Store, op: Operation)
    requires store.Valid() && store.initialized
    modifies store, store.backend
    ensures store.Valid() && store.initialized && StepOk(old(store.Now()), op, store.Now())
  {
    hide StandingAt, ActiveOk, StagingOk, JudgeBank, CandidateOf;
    match op {
      case Begin(length, crc) => var r := store.Begin(length, crc);
      case Write(offset, data) => var r := store.Write(offset, data);
      case Commit(first, second) => var r := store.CommitGuarded(first, second);
      case Abort => store.Abort();
      case PowerLoss => PowerCycle(store);
    }
  }

  /** Any history of operations, failures and power losses, with what each left. */
  method Lifetime(store: Store, history: seq<Operation>) returns (ghost run: seq<Moment>)
    requires store.Valid() && store.initialized
    modifies store, store.backend
    ensures store.Valid() && Recorded(history, run) && run[0] == old(store.Now()) && run[|history|] == store.Now()
  {
    hide StepOk, ActiveOk, StagingOk;
    run := [store.Now()];
    for i := 0 to |history|
      invariant store.Valid() && store.initialized
      invariant Recorded(history[..i], run) && run[0] == old(store.Now()) && run[i] == store.Now()
    {
      Execute(store, history[i]);
      run := run + [store.Now()];
    }
    assert history[..|history|] == history;
  }

  /** Every boot so far could read the bank of the snapshot to recover, and every commit had a newer generation to give. */
  predicate Trusted(history: seq<Operation>, run: seq<Moment>, n: nat)
    requires n <= |history| && |run| == |history| + 1
  {
    forall i | 0 <= i < n ::
      (history[i].Commit? ==> run[i].advance) &&
      (history[i].PowerLoss? ==> ReadsIt(Boot(run[i].durable, run[i].durable.saved), run[i + 1].firstUnread == run[i].firstUnread,
                                         run[i + 1].secondUnread == run[i].secondUnread))
  }

  /** A commit whose session checks passed met this snapshot, complete and accepted. */
  predicate CommittedAt(history: seq<Operation>, run: seq<Moment>, j: nat, n: nat, s: Selection)
    requires n <= |history| && |run| == |history| + 1
  {
    j < n && s.Selected? && history[j].Commit? && history[j].first && history[j].second && run[j].candidate == Some(s.snapshot)
  }

  /** What was there to begin with, or was committed since. */
  ghost predicate Published(history: seq<Operation>, run: seq<Moment>, n: nat, s: Selection)
    requires n <= |history| && |run| == |history| + 1
  {
    s == run[0].active || s == run[0].attempted || exists j: nat :: CommittedAt(history, run, j, n, s)
  }

  lemma PublishedStays(history: seq<Operation>, run: seq<Moment>, n: nat, s: Selection)
    requires n < |history| && |run| == |history| + 1 && Published(history, run, n, s)
    ensures Published(history, run, n + 1, s)
  {
    if s != run[0].active && s != run[0].attempted {
      var j: nat :| CommittedAt(history, run, j, n, s);
      assert CommittedAt(history, run, j, n + 1, s);
    }
  }

  /** A boot that can read the bank of the snapshot to recover. */
  lemma TrustedBoot(m: Moment, n: Moment)
    requires m.Standing() && BootStep(m, n)
    requires ReadsIt(Boot(m.durable, m.durable.saved), n.firstUnread == m.firstUnread, n.secondUnread == m.secondUnread)
    ensures n.Standing() && (n.active == m.active || (m.attempted.Selected? && n.active == m.attempted))
  {
    hide Committed, BootOver, Boot;
    var s := if RecoversTo(m.durable, m.active) then m.active else m.attempted;
    BootSelects(m.durable, s, n.lookupFaults == m.lookupFaults, n.firstUnread == m.firstUnread, n.secondUnread == m.secondUnread);
    BootKeeps(m.durable, n.durable.saved, s);
  }

  /**
   * Crash atomicity over any history of begins, writes, guarded commits, aborts, failures and power losses: while it can be
   * trusted, the next boot will select the active snapshot or the one commit in doubt; the active snapshot is always the
   * first one or one that a commit met whole and validated; and once there is one, there always is one.
   */
  lemma {:induction false} CrashAtomicity(history: seq<Operation>, run: seq<Moment>, n: nat)
    requires Recorded(history, run) && n <= |history| && run[0].Standing() && Trusted(history, run, n)
    ensures run[n].Standing() && Published(history, run, n, run[n].active)
    ensures run[n].attempted.Selected? ==> Published(history, run, n, run[n].attempted)
    ensures forall i | 0 <= i <= n :: run[i].active.Selected? ==> run[n].active.Selected?
  {
    hide StandingAt, Published, BootStep, ReadsIt;
    if n == 0 {
      NothingYet(history, run);
    } else {
      CrashAtomicity(history, run, n - 1);
      assert StepOk(run[n - 1], history[n - 1], run[n]);
      PublishedStays(history, run, n - 1, run[n - 1].active);
      if run[n - 1].attempted.Selected? { PublishedStays(history, run, n - 1, run[n - 1].attempted); }
      if history[n - 1].PowerLoss? { TrustedBoot(run[n - 1], run[n]); Booted(run[n - 1], run[n]); }
      if history[n - 1].Commit? { NewlyPublished(history, run, n); }
    }
  }

  lemma Booted(m: Moment, n: Moment)
    requires BootStep(m, n)
    ensures n.attempted.Nothing?
  {
  }

  lemma NothingYet(history: seq<Operation>, run: seq<Moment>)
    requires |run| == |history| + 1
    ensures Published(history, run, 0, run[0].active) && Published(history, run, 0, run[0].attempted)
  {
  }

  lemma NewlyPublished(history: seq<Operation>, run: seq<Moment>, n: nat)
    requires 0 < n <= |history| && Recorded(history, run) && history[n - 1].Commit?
    ensures run[n].active == run[n - 1].active || Published(history, run, n, run[n].active)
    ensures run[n].attempted == run[n - 1].attempted || run[n].attempted.Nothing? || Published(history, run, n, run[n].attempted)
  {
    hide StandingAt;
    assert StepOk(run[n - 1], history[n - 1], run[n]);
    if run[n].active != run[n - 1].active {
      assert CommittedAt(history, run, n - 1, n, run[n].active);
    } else if run[n].attempted != run[n - 1].attempted {
      assert CommittedAt(history, run, n - 1, n, run[n].attempted);
    }
  }
}
