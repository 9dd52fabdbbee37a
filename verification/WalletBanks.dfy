/** What the two snapshot banks durably say: the commit marker, the committed snapshot and the boot selection. */
module WalletBanks {
  import opened Bytes
  import opened NorFlash
  import opened WalletCore
  import Crc32

  const BANK_SIZE := 0x160000
  const MARKER_SIZE := 32
  const MARKER_OFFSET := BANK_SIZE - MARKER_SIZE
  const MARKER_MAGIC: seq<byte> := [0x57, 0x43, 0x4d, 0x31]  // "WCM1"

  type Bank = b: seq<byte> | |b| == BANK_SIZE witness Erase(BANK_SIZE)

  datatype Marker = Marker(generation: u32, length: u32, crc: u32)
  datatype Snapshot = Snapshot(package: seq<byte>, info: Info)

  function EncodeMarkerFront(bank: byte, m: Marker): (s: seq<byte>)
    ensures |s| == 28
  {
    MARKER_MAGIC + Le16(1) + [bank, 0] + Le32(m.generation) + Le32(m.length) + Le32(m.crc) + Le32(0) + Le32(0)
  }

  function EncodeMarker(bank: byte, m: Marker): (s: seq<byte>)
    ensures |s| == MARKER_SIZE
  {
    var front := EncodeMarkerFront(bank, m);
    front + Le32(Crc32.Crc(0, front))
  }

  function DecodeMarker(s: seq<byte>, bank: nat): (r: Option<Marker>)
    requires |s| == MARKER_SIZE
    ensures r.Some? ==> r.value.generation != 0
  {
    if s[..4] != MARKER_MAGIC || Read16(s, 4) != 1 || s[6] != bank || s[7] != 0 || Read32(s, 20) != 0 || Read32(s, 24) != 0 ||
       Read32(s, 28) != Crc32.Crc(0, s[..28]) || Read32(s, 8) == 0
    then None
    else Some(Marker(Read32(s, 8), Read32(s, 12), Read32(s, 16)))
  }

  lemma MarkerFields(bank: byte, m: Marker)
    ensures var s := EncodeMarker(bank, m);
            s[..4] == MARKER_MAGIC && Read16(s, 4) == 1 && s[6] == bank && s[7] == 0 && Read32(s, 8) == m.generation &&
            Read32(s, 12) == m.length && Read32(s, 16) == m.crc && Read32(s, 20) == 0 && Read32(s, 24) == 0 &&
            s[..28] == EncodeMarkerFront(bank, m) && Read32(s, 28) == Crc32.Crc(0, s[..28])
  {
    var s := EncodeMarker(bank, m);
    assert s[..28] == EncodeMarkerFront(bank, m);
    ReadLe16(s, 4, 1);
    ReadLe32(s, 8, m.generation);
    ReadLe32(s, 12, m.length);
    ReadLe32(s, 16, m.crc);
    ReadLe32(s, 20, 0);
    ReadLe32(s, 24, 0);
    ReadLe32(s, 28, Crc32.Crc(0, EncodeMarkerFront(bank, m)));
  }

  /** A marker decodes to what was encoded, for the bank it names and for no other. */
  lemma MarkerRoundTrip(bank: byte, m: Marker, other: nat)
    ensures DecodeMarker(EncodeMarker(bank, m), other) == if other == bank && m.generation != 0 then Some(m) else None
  {
    MarkerFields(bank, m);
  }

  /** The verdict on the first `length` cells of a bank. */
  function JudgeBank(cells: Bank, length: nat, crc: u32): Verdict {
    if LengthAccepted(length) then Judge(cells[..length], crc) else FormatError
  }

  function MarkerOf(cells: Bank): seq<byte> { cells[MARKER_OFFSET..] }

  /** The snapshot a bank durably commits, if its marker decodes and the package behind it is accepted. */
  function Committed(cells: Bank, bank: nat): (r: Option<Snapshot>)
    ensures r.Some? ==> r.value.info.available && r.value.info.revision != 0 && |r.value.info.counts| == KIND_COUNT
  {
    var m := DecodeMarker(MarkerOf(cells), bank);
    if m.None? then None
    else
      var v := JudgeBank(cells, m.value.length, m.value.crc);
      if !v.Accepted? then None
      else Some(Snapshot(cells[..m.value.length], v.info.(revision := m.value.generation)))
  }

  /** The saved bank number designates a bank that commits a snapshot, or the newest generation wins, the lower bank on a tie. */
  function Select(first: Option<Snapshot>, second: Option<Snapshot>, loaded: Option<nat>): (bank: int)
    ensures bank == -1 || (bank == 0 && first.Some?) || (bank == 1 && second.Some?)
    ensures bank == -1 <==> first.None? && second.None?
  {
    if loaded == Some(0) && first.Some? then 0
    else if loaded == Some(1) && second.Some? then 1
    else if second.Some? && (first.None? || second.value.info.revision > first.value.info.revision) then 1
    else if first.Some? then 0
    else -1
  }

  /** Everything that survives power loss. */
  datatype Durable = Durable(first: Bank, second: Bank, saved: Option<nat>) {
    function At(bank: nat): Bank
      requires bank < 2
    {
      if bank == 0 then first else second
    }

    function With(bank: nat, cells: Bank): Durable
      requires bank < 2
    {
      if bank == 0 then this.(first := cells) else this.(second := cells)
    }

    function Holds(bank: nat): Option<Snapshot>
      requires bank < 2
    {
      Committed(At(bank), bank)
    }
  }

  datatype Selection = Nothing | Selected(bank: nat, snapshot: Snapshot)

  /** What a boot selects when the lookup of the saved bank number answers `loaded`. */
  function Boot(d: Durable, loaded: Option<nat>): Selection {
    var bank := Select(d.Holds(0), d.Holds(1), loaded);
    if bank == -1 then Nothing else Selected(bank, d.Holds(bank).value)
  }

  /** Every boot selects s, whether or not that lookup succeeds. */
  predicate RecoversTo(d: Durable, s: Selection) {
    Boot(d, d.saved) == s && Boot(d, None) == s
  }

  function Other(bank: nat): nat
    requires bank < 2
  {
    1 - bank
  }

  function NextGeneration(revision: u32): (g: u32)
    ensures g != 0
  {
    if revision == 0xffff_ffff then 1 else revision + 1
  }

  /** The selection is physically present; with nothing selected the upper bank is empty (the lower one is spare). */
  predicate Present(d: Durable, s: Selection) {
    match s
    case Nothing => d.Holds(1).None?
    case Selected(bank, snapshot) => bank < 2 && d.Holds(bank) == Some(snapshot)
  }

  /** The bank the next transfer erases. */
  function Spare(s: Selection): (bank: nat)
    requires s.Selected? ==> s.bank < 2
    ensures bank < 2
  {
    if s.Selected? && s.bank == 0 then 1 else 0
  }

  lemma RecoveredIsPresent(d: Durable, s: Selection)
    requires RecoversTo(d, s)
    ensures Present(d, s)
  {
    hide Committed;
  }

  /** With the spare bank empty, what is present is what every boot selects, wherever the saved number points. */
  lemma SpareBankEmpty(d: Durable, s: Selection)
    requires Present(d, s) && d.Holds(Spare(s)).None?
    ensures RecoversTo(d, s)
  {
    hide Committed;
  }

  /** The next boot selects the active snapshot or, after a marker write that was started but not acknowledged, the
      snapshot of that commit; never anything else, and never nothing when something was active. */
  predicate StandingAt(d: Durable, active: Selection, attempted: Selection) {
    Present(d, active) &&
    (RecoversTo(d, active) || (attempted.Selected? && attempted.bank == Spare(active) && RecoversTo(d, attempted)))
  }

  /** An erased or partly programmed bank whose marker cells are blank holds no snapshot. */
  lemma BlankMarkerHoldsNothing(cells: Bank, bank: nat)
    requires Blank(cells, MARKER_OFFSET, BANK_SIZE)
    ensures Committed(cells, bank).None?
  {
    assert MarkerOf(cells)[0] == cells[MARKER_OFFSET];
  }

  /** Once the marker is down in the spare bank and the saved bank number designates it, that bank holds the validated package. */
  lemma MarkerCommits(cells: Bank, bank: byte, m: Marker)
    requires Blank(cells, MARKER_OFFSET, BANK_SIZE) && m.generation != 0
    requires JudgeBank(cells, m.length, m.crc).Accepted?
    ensures Committed(Program(cells, MARKER_OFFSET, EncodeMarker(bank, m)), bank)
         == Some(Snapshot(cells[..m.length], JudgeBank(cells, m.length, m.crc).info.(revision := m.generation)))
  {
    hide Judge, EncodeMarker, DecodeMarker;
    var after := Program(cells, MARKER_OFFSET, EncodeMarker(bank, m));
    ProgramBlank(cells, MARKER_OFFSET, EncodeMarker(bank, m));
    assert MarkerOf(after) == EncodeMarker(bank, m);
    assert after[..m.length] == cells[..m.length];
    MarkerRoundTrip(bank, m, bank);
  }

  /** After the commit point the new bank is recovered even without the saved number exactly when its generation is newer
      (or ties in the lower bank); the saved number alone always finds it. */
  lemma CommitRecovers(d: Durable, bank: nat)
    requires bank < 2 && d.Holds(bank).Some? && d.saved == Some(bank)
    ensures Boot(d, d.saved) == Selected(bank, d.Holds(bank).value)
    ensures RecoversTo(d, Selected(bank, d.Holds(bank).value)) <==>
            var spare := d.Holds(Other(bank));
            spare.None? || d.Holds(bank).value.info.revision > spare.value.info.revision ||
            (bank == 0 && d.Holds(bank).value.info.revision == spare.value.info.revision)
  {
    hide Committed;
    if d.Holds(Other(bank)).Some? {
      assert Boot(d, None).Selected?;
    }
  }

  /** A commit on top of a committed snapshot survives a lost bank number for every revision except the last before the
      32-bit generation wraps. */
  lemma CommitSurvivesLostBankNumber(d: Durable, bank: nat)
    requires bank < 2 && d.Holds(bank).Some? && d.Holds(Other(bank)).Some? && d.saved == Some(bank)
    requires d.Holds(bank).value.info.revision == NextGeneration(d.Holds(Other(bank)).value.info.revision)
    ensures RecoversTo(d, Selected(bank, d.Holds(bank).value)) <==> d.Holds(Other(bank)).value.info.revision != 0xffff_ffff
  {
    CommitRecovers(d, bank);
  }
}
