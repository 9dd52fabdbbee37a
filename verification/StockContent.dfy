/** The legacy image receiver over two flash partitions: destructive replacement, a commit header, and borrowed images. */
module StockContent {
  import opened Bytes
  import opened NorFlash
  import Bits
  import StockProtocol

  const METADATA_SIZE := 4096
  const JPG1: seq<byte> := [0x4a, 0x50, 0x47, 0x31]

  datatype Profile = Profile(imgMode: byte, avatarName: seq<byte>, rest: seq<byte>)
  /** What the profile text parser makes of a type 1 payload. */
  datatype Parsed = Malformed | NoFields | Fields(candidate: Profile, modeField: bool, avatarField: bool)
  datatype SinkResult = SinkOk | SinkLimit | SinkIo | SinkInvalid
  datatype Event = NoEvent | ProfileEvent | AvatarReady | FullscreenReady
  datatype Answer = Answer(kind: byte, status: byte, event: Event)

  /** Two image partitions whose erase and write may fail part way; `usable` tells whether the partition can hold images.
      It counts the erases of each partition that succeeded and that failed, and all operations that failed. */
  class ImageFlash {
    var cells: seq<seq<byte>>
    const usable: seq<bool>
    ghost var erases: seq<int>
    ghost var spoiled: seq<int>
    ghost var faults: nat

    ghost predicate Valid()
      reads this
    {
      |cells| == |usable| == |erases| == |spoiled| == 2 && forall i | 0 <= i < 2 && usable[i] :: |cells[i]| >= METADATA_SIZE && |cells[i]| % 4096 == 0
    }

    constructor (first: seq<byte>, second: seq<byte>, usable: seq<bool>)
      requires |usable| == 2
      requires usable[0] ==> |first| >= METADATA_SIZE && |first| % 4096 == 0
      requires usable[1] ==> |second| >= METADATA_SIZE && |second| % 4096 == 0
      ensures Valid() && cells == [first, second] && this.usable == usable
    {
      this.cells, this.usable := [first, second], usable;
      erases, spoiled, faults := [0, 0], [0, 0], 0;
    }

    method EraseFront(i: nat, length: nat) returns (ok: bool)
      requires Valid() && i < 2 && length <= |cells[i]|
      modifies this
      ensures Valid() && cells == old(cells)[i := cells[i]] && |cells[i]| == |old(cells)[i]|
      ensures ok ==> cells[i] == Erase(length) + old(cells)[i][length..]
      ensures if ok then erases == old(erases)[i := old(erases)[i] + 1] && spoiled == old(spoiled) && faults == old(faults)
              else erases == old(erases) && spoiled == old(spoiled)[i := old(spoiled)[i] + 1] && faults == old(faults) + 1
    {
      var torn: seq<byte> := *;
      ok := *;
      if ok {
        cells, erases := cells[i := Erase(length) + cells[i][length..]], erases[i := erases[i] + 1];
      } else {
        if |torn| == length { cells := cells[i := torn + cells[i][length..]]; }
        spoiled, faults := spoiled[i := spoiled[i] + 1], faults + 1;
      }
    }

    method Write(i: nat, offset: nat, data: seq<byte>) returns (ok: bool)
      requires Valid() && i < 2 && offset + |data| <= |cells[i]|
      modifies this
      ensures Valid() && cells == old(cells)[i := cells[i]]
      ensures ok ==> cells[i] == Program(old(cells)[i], offset, data)
      ensures erases == old(erases) && spoiled == old(spoiled) && faults == old(faults) + if ok then 0 else 1
      ensures Torn(old(cells)[i], cells[i], offset, |data|) || cells[i] == Program(old(cells)[i], offset, data)
    {
      var torn: seq<byte> := *;
      ok := *;
      TornSelf(cells[i], offset, |data|);
      if ok {
        cells := cells[i := Program(cells[i], offset, data)];
      } else {
        if Torn(cells[i], torn, offset, |data|) { cells := cells[i := torn]; }
        faults := faults + 1;
      }
    }
  }

  lemma TornSelf(cells: seq<byte>, offset: nat, length: nat)
    requires offset + length <= |cells|
    ensures Torn(cells, cells, offset, length)
  {
    forall i | offset <= i < offset + length ensures Bits.And(cells[i], cells[i]) == cells[i] { Bits.AndSelf(cells[i]); }
  }

  /** What was sent to a partition since a BEGIN last erased it: the declared length, the octets accepted, and whether an
      END with matching counts reached the commit header. */
  datatype Slot = Slot(begun: bool, ended: bool, declared: nat, data: seq<byte>)

  predicate ShowsImage(cells: seq<byte>) { |cells| >= 8 && cells[..4] == JPG1 }

  predicate StoredAt(cells: seq<byte>, data: seq<byte>) {
    METADATA_SIZE + |data| <= |cells| && cells[METADATA_SIZE..METADATA_SIZE + |data|] == data
  }

  /** Once a BEGIN has erased a partition its header is blank until an END with all declared octets in place is reached. */
  predicate SlotOk(cells: seq<byte>, s: Slot) {
    s.begun ==>
      |cells| >= METADATA_SIZE &&
      (!s.ended ==> Blank(cells, 0, 8)) &&
      (s.ended ==> |s.data| == s.declared && StoredAt(cells, s.data))
  }

  /** An open transfer has put exactly the accepted octets, once each, into erased cells. */
  predicate Filling(cells: seq<byte>, s: Slot, declared: nat, received: nat, written: nat, erased: nat) {
    s.begun && !s.ended && s.declared == declared && |s.data| == received == written && declared <= erased &&
    METADATA_SIZE + erased <= |cells| && written <= erased && StoredAt(cells, s.data) &&
    Blank(cells, METADATA_SIZE + written, METADATA_SIZE + erased)
  }

  /** A partition that shows an image after a successful BEGIN holds exactly the declared octets. */
  lemma ShownIsComplete(cells: seq<byte>, s: Slot)
    requires SlotOk(cells, s) && s.begun && ShowsImage(cells)
    ensures s.ended && |s.data| == s.declared && StoredAt(cells, s.data)
  {
    assert cells[0] == cells[..4][0];
  }

  /** What a borrower is given. */
  function ReadBack(cells: seq<byte>): Option<seq<byte>> {
    if |cells| < METADATA_SIZE || cells[..4] != JPG1 then None
    else
      var length := Read32(cells, 4);
      if length == 0 || length > |cells| - METADATA_SIZE then None else Some(cells[METADATA_SIZE..METADATA_SIZE + length])
  }

  function Header(length: u32): (h: seq<byte>)
    ensures |h| == 8
  {
    JPG1 + Le32(length)
  }

  function EraseLength(total: nat): nat { (total + 4095) / 4096 * 4096 + METADATA_SIZE }

  lemma EraseFits(total: nat, size: nat)
    requires size % 4096 == 0 && size >= METADATA_SIZE && total <= size - METADATA_SIZE
    ensures METADATA_SIZE + total <= EraseLength(total) <= size
  {
  }

  lemma ErasedFills(before: seq<byte>, length: nat, total: nat)
    requires METADATA_SIZE + total <= length <= |before|
    ensures var cells := Erase(length) + before[length..];
            SlotOk(cells, Slot(true, false, total, [])) && Filling(cells, Slot(true, false, total, []), total, 0, 0, length - METADATA_SIZE)
  {
  }

  lemma AppendFills(cells: seq<byte>, s: Slot, declared: nat, written: nat, erased: nat, data: seq<byte>)
    requires SlotOk(cells, s) && Filling(cells, s, declared, written, written, erased) && |data| <= erased - written
    ensures var after := Program(cells, METADATA_SIZE + written, data);
            SlotOk(after, s.(data := s.data + data)) &&
            Filling(after, s.(data := s.data + data), declared, written + |data|, written + |data|, erased)
  {
    ProgramBlank(cells, METADATA_SIZE + written, data);
  }

  /** Data writes, whole or torn, stay clear of the header. */
  lemma DataKeepsHeader(before: seq<byte>, after: seq<byte>, s: Slot, offset: nat, data: seq<byte>)
    requires METADATA_SIZE <= offset && offset + |data| <= |before| && SlotOk(before, s) && !s.ended
    requires Torn(before, after, offset, |data|) || after == Program(before, offset, data)
    ensures SlotOk(after, s)
  {
  }

  /** The header write leaves the octets alone whole or torn; whole, the partition reads back exactly them. */
  lemma HeaderCommits(before: seq<byte>, after: seq<byte>, s: Slot, erased: nat, ok: bool)
    requires SlotOk(before, s) && Filling(before, s, |s.data|, |s.data|, |s.data|, erased) && |s.data| < 0x1_0000_0000
    requires var done := Program(before, 0, Header(|s.data|));
             (Torn(before, after, 0, 8) || after == done) && (ok ==> after == done)
    ensures SlotOk(after, s.(ended := true))
    ensures ok && s.data != [] ==> ReadBack(after) == Some(s.data)
    ensures ok ==> after[..4] == [0x4a, 0x50, 0x47, 0x31] && Read32(after, 4) == |s.data| && after[4096..4096 + |s.data|] == s.data
  {
    hide Header;
    assert StoredAt(after, s.data);
    if ok { HeaderReads(before, |s.data|); }
  }

  lemma HeaderReads(before: seq<byte>, length: u32)
    requires |before| >= 8 && Blank(before, 0, 8)
    ensures var after := Program(before, 0, Header(length)); after[..4] == JPG1 && Read32(after, 4) == length
  {
    hide Program;
    ProgramBlank(before, 0, Header(length));
    var after := Program(before, 0, Header(length));
    assert after[..8] == Header(length);
    assert after[..4] == Header(length)[..4] == JPG1;
    assert after[4..8] == Header(length)[4..8] == Le32(length);
    ReadLe32(after, 4, length);
  }

  /** What the images look like from outside: the selected mode, the open transfer and what each partition shows. */
  datatype ImageView = ImageView(mode: byte, active: bool, target: nat, declared: nat, data: seq<byte>, first: Option<seq<byte>>,
                                 second: Option<seq<byte>>) {
    function Shown(i: nat): Option<seq<byte>>
      requires i < 2
    {
      if i == 0 then first else second
    }
  }

  predicate Begins(kind: byte, payload: seq<byte>) { kind == 2 && 5 <= |payload| <= StockProtocol.PAYLOAD_MAX && payload[0] == 0 }

  predicate Carries(kind: byte, payload: seq<byte>) { kind == 2 && payload != [] && payload[0] == 1 }

  predicate Ends(kind: byte, payload: seq<byte>) { kind == 2 && payload != [] && payload[0] == 2 }

  function Declared(payload: seq<byte>): u32
    requires Begins(2, payload)
  {
    Read32(payload, 1)
  }

  /** What became of a partition whose erase was asked for, or not. */
  predicate Wiped(s: Slot, t: Slot, total: nat, erased: int, spoiled: int) {
    if spoiled != 0 then spoiled == 1 && erased == 0 && !t.begun
    else if erased != 0 then erased == 1 && t == Slot(true, false, total, [])
    else t == s
  }

  /** What one command can do to the history of one partition, and when it does. `was` and `now` tell whether the open
      transfer is to this partition, before and after. Only an erase that failed makes it forget what was begun. */
  predicate SlotMoves(s: Slot, t: Slot, was: bool, now: bool, kind: byte, payload: seq<byte>, status: byte, erased: int, spoiled: int) {
    if erased != 0 || spoiled != 0 then
      Begins(kind, payload) && Wiped(s, t, Declared(payload), erased, spoiled) && (now <==> status == 0)
    else
      (now ==> was) &&
      if t == s then now && Carries(kind, payload) && status == 0 ==> payload[1..] == []
      else if Carries(kind, payload) then was && !s.ended && t == s.(data := s.data + payload[1..]) && (now <==> status == 0)
      else Ends(kind, payload) && was && t == s.(ended := true) && |s.data| == s.declared && !now
  }

  /** What one run of commands is judged by, between any two of them. */
  datatype Moment = Moment(view: ImageView, slots: seq<Slot>, cells: seq<seq<byte>>, erases: seq<int>, spoiled: seq<int>, leases: seq<nat>,
                           usable: seq<bool>) {
    predicate Sized() {
      |slots| == |cells| == |erases| == |spoiled| == |leases| == |usable| == 2 &&
      forall i | 0 <= i < 2 && usable[i] :: |cells[i]| >= METADATA_SIZE
    }

    /** What the selected partition can hold. */
    function Room(): Option<nat>
      requires Sized()
    {
      if view.mode < 2 && usable[view.mode] then Some(|cells[view.mode]| - METADATA_SIZE) else None
    }

    predicate Blocked(busy: bool)
      requires Sized()
    {
      busy || (view.mode < 2 && leases[view.mode] != 0)
    }


    predicate Receiving(i: nat) { view.active && view.target == i }

    function Reset(): Moment { this.(view := view.(active := false, declared := 0)) }
  }

  /** What one command does: each partition's history moves as the command says, borrowed partitions stay, and success means
      what it should. */
  predicate StepOk(m: Moment, kind: byte, payload: seq<byte>, status: byte, n: Moment) {
    m.Sized() && n.Sized() && n.leases == m.leases &&
    (forall i | 0 <= i < 2 ::
       (m.leases[i] > 0 ==> n.cells[i] == m.cells[i]) &&
       SlotMoves(m.slots[i], n.slots[i], m.Receiving(i), n.Receiving(i), kind, payload, status, n.erases[i] - m.erases[i],
                 n.spoiled[i] - m.spoiled[i])) &&
    (kind == 2 && status == 0 ==> ImageStep(m.view, payload, n.view)) &&
    (kind != 2 ==> n == m.(view := n.view))
  }

  predicate Apart(m: Moment, n: Moment, target: nat) {
    m.Sized() && n.Sized() && n.leases == m.leases && target < 2 && (m.leases[target] > 0 ==> n.cells[target] == m.cells[target]) &&
    n.cells[1 - target] == m.cells[1 - target] &&
    n.slots[1 - target] == m.slots[1 - target] && n.erases[1 - target] == m.erases[1 - target] &&
    n.spoiled[1 - target] == m.spoiled[1 - target]
  }

  lemma BeginStep(m: Moment, payload: seq<byte>, status: byte, n: Moment)
    requires Begins(2, payload) && n.view.mode == m.view.mode && Apart(m, n, n.view.target)
    requires var t := n.view.target;
             Wiped(m.slots[t], n.slots[t], Declared(payload), n.erases[t] - m.erases[t], n.spoiled[t] - m.spoiled[t]) &&
             (n.view.active <==> status == 0) &&
             (status == 0 ==> t == n.view.mode && n.view.declared == Declared(payload) && n.view.data == [] && n.erases[t] > m.erases[t])
    ensures StepOk(m, 2, payload, status, n)
  {
  }

  lemma DataStep(m: Moment, payload: seq<byte>, status: byte, n: Moment)
    requires Carries(2, payload) && n.view.mode == m.view.mode && n.view.target == m.view.target && Apart(m, n, n.view.target)
    requires n.erases == m.erases && n.spoiled == m.spoiled && n.view.declared == m.view.declared
    requires var t := n.view.target; var s := m.slots[t];
             m.view.data == s.data && n.view.data == n.slots[t].data && (n.view.active <==> status == 0) && (n.view.active ==> m.view.active) &&
             (n.slots[t] == s || (m.view.active && !s.ended && n.slots[t] == s.(data := s.data + payload[1..]))) &&
             (status == 0 ==> n.slots[t].data == s.data + payload[1..])
    ensures StepOk(m, 2, payload, status, n)
  {
    assert forall a: seq<byte>, b: seq<byte> :: a == a + b ==> |b| == 0;
  }

  lemma EndStep(m: Moment, payload: seq<byte>, status: byte, n: Moment)
    requires Ends(2, payload) && n.view.mode == m.view.mode && n.view.target == m.view.target && Apart(m, n, n.view.target)
    requires n.erases == m.erases && n.spoiled == m.spoiled && n.view.declared == m.view.declared && !n.view.active
    requires var t := n.view.target; var s := m.slots[t];
             m.view.data == s.data && n.view.data == n.slots[t].data &&
             (n.slots[t] == s || (m.view.active && n.slots[t] == s.(ended := true) && |s.data| == s.declared)) &&
             (status == 0 ==> m.view.active && |s.data| == m.view.declared && n.view.data == s.data &&
                              (s.data != [] ==> n.view.Shown(t) == Some(s.data)))
    ensures StepOk(m, 2, payload, status, n) && StepOk(m, 2, payload, 0x16, n)
  {
  }

  /** A command that is refused outright. */
  lemma Refused(m: Moment, kind: byte, payload: seq<byte>, status: byte)
    requires m.Sized() && status != 0 && status != 1
    ensures StepOk(m, kind, payload, status, m)
  {
  }

  /** A call found cancelled at its end is answered 0x12, and its transfer is abandoned. */
  lemma CancelledStep(m: Moment, kind: byte, payload: seq<byte>, status: byte, n: Moment)
    requires StepOk(m, kind, payload, status, n)
    ensures StepOk(m, kind, payload, 0x12, n.Reset())
  {
  }

  /** After a session change only BEGIN can succeed, and it does not depend on the forgotten transfer. */
  lemma StepFromReset(m: Moment, kind: byte, payload: seq<byte>, status: byte, n: Moment)
    requires StepOk(m.Reset(), kind, payload, status, n)
    ensures StepOk(m, kind, payload, status, n)
  {
  }

  function RoundUp(total: nat): nat { EraseLength(total) - METADATA_SIZE }

  /** How an image command is answered. busy: the image is being decoded; io, saving: a flash operation, or saving the profile,
      failed; cancelled: the session ended. */
  function ImageStatus(m: Moment, payload: seq<byte>, busy: bool, io: bool, saving: bool, cancelled: bool): byte
    requires m.Sized()
  {
    var v := m.view;
    if payload == [] || |payload| > StockProtocol.PAYLOAD_MAX then 0x12
    else if Begins(2, payload) then
      if v.mode > 1 then 0x12
      else if m.Blocked(busy) then 0x1b
      else if m.Room().None? then 0x16
      else if Declared(payload) > m.Room().value then 0x15
      else if io || cancelled then 0x16 else 0
    else if Carries(2, payload) then
      if !v.active then 0x12
      else if |payload| - 1 > RoundUp(v.declared) - |v.data| then 0x16
      else if |payload| > 1 && (io || cancelled) then 0x16 else 0
    else if Ends(2, payload) then
      if !v.active || |v.data| != v.declared then 0x12
      else if io || cancelled || (v.target == 0 && saving) then 0x16 else 0
    else 0x12
  }

  /** An avatar name that is not on the device is ignored. */
  function Candidate(profile: Profile, parsed: Parsed, avatarExists: bool): Profile
    requires parsed.Fields?
  {
    if parsed.avatarField && !avatarExists then parsed.candidate.(avatarName := profile.avatarName) else parsed.candidate
  }

  function ProfileStatus(profile: Profile, active: bool, parsed: Parsed, avatarExists: bool, saving: bool): byte {
    if parsed.Malformed? then 0x13
    else if parsed.NoFields? then 0x14
    else if parsed.modeField && active then 0x1b
    else if Candidate(profile, parsed, avatarExists) != profile && saving then 0x16 else 1
  }

  class Content {
    const flash: ImageFlash
    var profile: Profile
    var active: bool
    var declared: u32
    var received: nat
    var capacity: nat
    var mode: nat
    var written: nat
    var erased: nat
    var leases: seq<nat>
    var initialized: bool
    var session: u32
    var sessionKnown: bool
    var cancelled: bool
    ghost var slots: seq<Slot>
    ghost var unsaved: nat

    /** What holds even in the middle of a transfer command. */
    ghost predicate Sound()
      reads flash, `profile, `active, `declared, `received, `capacity, `mode, `written, `erased, `leases, `slots
    {
      flash.Valid() && |leases| == 2 && |slots| == 2 && mode < 2 && SlotOk(flash.cells[0], slots[0]) && SlotOk(flash.cells[1], slots[1])
    }

    ghost predicate Open()
      requires Sound()
      reads flash, `profile, `active, `declared, `received, `capacity, `mode, `written, `erased, `leases, `slots
    {
      leases[mode] == 0 && flash.usable[mode] && capacity == |flash.cells[mode]| - METADATA_SIZE && erased == RoundUp(declared) &&
      Filling(flash.cells[mode], slots[mode], declared, received, written, erased)
    }

    ghost predicate Valid()
      reads flash, `profile, `active, `declared, `received, `capacity, `mode, `written, `erased, `leases, `slots
    {
      Sound() && (active ==> Open())
    }

    ghost function View(): ImageView
      requires Valid()
      reads flash, `profile, `active, `declared, `received, `capacity, `mode, `written, `erased, `leases, `slots
    {
      ImageView(profile.imgMode, active, mode, declared, slots[mode].data, ReadBack(flash.cells[0]), ReadBack(flash.cells[1]))
    }

    ghost function Now(): (m: Moment)
      requires Valid()
      reads flash, `profile, `active, `declared, `received, `capacity, `mode, `written, `erased, `leases, `slots
      ensures m.Sized() && m.view == View()
    {
      Moment(View(), slots, flash.cells, flash.erases, flash.spoiled, leases, flash.usable)
    }

    constructor (flash: ImageFlash, profile: Profile)
      requires flash.Valid()
      ensures this.flash == flash && this.profile == profile && Valid() && !active && leases == [0, 0] && initialized
    {
      this.flash, this.profile := flash, profile;
      active, declared, received, capacity, mode, written, erased := false, 0, 0, 0, 0, 0, 0;
      leases, initialized, session, sessionKnown, cancelled := [0, 0], true, 0, false, false;
      slots, unsaved := [Slot(false, false, 0, []), Slot(false, false, 0, [])], 0;
    }

    /** The session check; once it fails the call stays cancelled. */
    method SessionAllowed() returns (ok: bool)
      modifies `cancelled
      ensures ok == !cancelled && (old(cancelled) ==> cancelled)
    {
      var current: bool := *;
      if !current { cancelled := true; }
      ok := !cancelled;
    }

    /** unsaved counts the saves that failed for another reason than the session. */
    method SaveProfile() returns (ok: bool)
      modifies `cancelled, `unsaved
      ensures old(unsaved) <= unsaved && (old(cancelled) ==> cancelled)
      ensures ok <==> !cancelled && unsaved == old(unsaved)
    {
      var stored: bool := *;
      if !stored { unsaved := unsaved + 1; }
      var allowed := SessionAllowed();
      ok := stored && allowed;
    }

    /** The partition that is not being received into is left alone. */
    twostate predicate OtherKept()
      reads this, flash
    {
      |flash.cells| == |flash.erases| == |flash.spoiled| == 2 && |old(flash.cells)| == |old(flash.erases)| == |old(flash.spoiled)| == 2 &&
      |slots| == 2 && |old(slots)| == 2 && mode < 2 &&
      flash.cells[1 - mode] == old(flash.cells)[1 - mode] && slots[1 - mode] == old(slots)[1 - mode] &&
      flash.erases[1 - mode] == old(flash.erases)[1 - mode] && flash.spoiled[1 - mode] == old(flash.spoiled)[1 - mode] &&
      |flash.cells[mode]| == |old(flash.cells)[mode]|
    }

    twostate predicate NoErase()
      reads flash
    {
      flash.erases == old(flash.erases) && flash.spoiled == old(flash.spoiled)
    }

    /** A whole or failed erase shows; a call that is cancelled after its erase has still begun the partition. */
    method ImageBegin(total: u32) returns (r: SinkResult)
      requires Sound() && leases[mode] == 0
      modifies `cancelled, `written, `erased, `slots, flash
      ensures Sound() && OtherKept() && (old(cancelled) ==> cancelled) && flash.faults >= old(flash.faults)
      ensures Wiped(old(slots)[mode], slots[mode], total, flash.erases[mode] - old(flash.erases)[mode], flash.spoiled[mode] - old(flash.spoiled)[mode])
      ensures r == if !flash.usable[mode] then SinkIo else if total > |flash.cells[mode]| - METADATA_SIZE then SinkLimit
                   else if flash.faults > old(flash.faults) then SinkIo else if cancelled then SinkInvalid else SinkOk
      ensures r == SinkOk ==> slots[mode].begun && slots[mode].data == [] && erased == RoundUp(total) && flash.erases[mode] > old(flash.erases)[mode] &&
                              Filling(flash.cells[mode], slots[mode], total, 0, written, erased)
    {
      hide SlotOk, Filling;
      if !flash.usable[mode] { return SinkIo; }
      if total > |flash.cells[mode]| - METADATA_SIZE { return SinkLimit; }
      EraseFits(total, |flash.cells[mode]|);
      var allowed := SessionAllowed();
      if !allowed { return SinkInvalid; }
      ghost var before := flash.cells[mode];
      var ok := flash.EraseFront(mode, EraseLength(total));
      if !ok {
        slots := slots[mode := Slot(false, false, 0, [])];
        NotBegun(flash.cells[mode]);
        return SinkIo;
      }
      slots := slots[mode := Slot(true, false, total, [])];
      ErasedFills(before, EraseLength(total), total);
      allowed := SessionAllowed();
      if !allowed { return SinkInvalid; }
      written, erased := 0, EraseLength(total) - METADATA_SIZE;
      r := SinkOk;
    }

    method ImageData(data: seq<byte>) returns (r: SinkResult)
      requires Sound() && Open()
      modifies `cancelled, `written, `slots, flash
      ensures Sound() && OtherKept() && NoErase() && (old(cancelled) ==> cancelled) && flash.faults >= old(flash.faults)
      ensures r == if |data| > erased - old(written) then SinkLimit
                   else if flash.faults > old(flash.faults) then SinkIo else if cancelled then SinkInvalid else SinkOk
      ensures slots[mode] == old(slots)[mode] || slots[mode] == old(slots)[mode].(data := old(slots)[mode].data + data)
      ensures r == SinkOk ==> slots[mode] == old(slots)[mode].(data := old(slots)[mode].data + data) &&
                              Filling(flash.cells[mode], slots[mode], declared, received + |data|, written, erased)
    {
      hide SlotOk, Filling;
      FillingBounds(flash.cells[mode], slots[mode], declared, received, written, erased);
      if |data| > erased - written { return SinkLimit; }
      var allowed := SessionAllowed();
      if !allowed { return SinkInvalid; }
      ghost var before, slot := flash.cells[mode], slots[mode];
      var ok := flash.Write(mode, METADATA_SIZE + written, data);
      DataKeepsHeader(before, flash.cells[mode], slot, METADATA_SIZE + written, data);
      if !ok { return SinkIo; }
      AppendFills(before, slot, declared, written, erased, data);
      slots := slots[mode := slot.(data := slot.data + data)];
      allowed := SessionAllowed();
      if !allowed { return SinkInvalid; }
      written := written + |data|;
      r := SinkOk;
    }

    method ImageEnd() returns (r: SinkResult)
      requires Sound() && Open() && received == declared
      modifies `cancelled, `slots, flash
      ensures Sound() && OtherKept() && NoErase() && (old(cancelled) ==> cancelled) && flash.faults >= old(flash.faults)
      ensures r == if flash.faults > old(flash.faults) then SinkIo else if cancelled then SinkInvalid else SinkOk
      ensures slots[mode] == old(slots)[mode] || slots[mode] == old(slots)[mode].(ended := true)
      ensures r == SinkOk ==> slots[mode] == old(slots)[mode].(ended := true) &&
                              (slots[mode].data != [] ==> ReadBack(flash.cells[mode]) == Some(slots[mode].data))
    {
      hide SlotOk, Filling, ReadBack;
      FillingBounds(flash.cells[mode], slots[mode], declared, received, written, erased);
      var allowed := SessionAllowed();
      if !allowed { return SinkInvalid; }
      ghost var before, slot := flash.cells[mode], slots[mode];
      var ok := flash.Write(mode, 0, Header(written));
      HeaderCommits(before, flash.cells[mode], slot, erased, ok);
      slots := slots[mode := slot.(ended := true)];
      if !ok { return SinkIo; }
      allowed := SessionAllowed();
      r := if allowed then SinkOk else SinkInvalid;
    }

    /** Borrowed partitions are neither erased nor written. */
    twostate predicate LeasesKept()
      reads this, flash
    {
      |leases| == 2 && |flash.cells| == 2 && |old(flash.cells)| == 2 &&
      (leases[0] > 0 ==> flash.cells[0] == old(flash.cells)[0]) && (leases[1] > 0 ==> flash.cells[1] == old(flash.cells)[1])
    }

    method ReceiveBegin(payload: seq<byte>) returns (status: byte)
      requires Sound() && Begins(2, payload) && leases[mode] == 0 && flash.usable[mode]
      requires capacity == |flash.cells[mode]| - METADATA_SIZE
      modifies `active, `declared, `received, `cancelled, `written, `erased, `slots, flash
      ensures Valid() && LeasesKept() && OtherKept() && (old(cancelled) ==> cancelled) && flash.faults >= old(flash.faults)
      ensures Wiped(old(slots)[mode], slots[mode], Declared(payload), flash.erases[mode] - old(flash.erases)[mode],
                    flash.spoiled[mode] - old(flash.spoiled)[mode])
      ensures status == if Declared(payload) > capacity then 0x15 else if flash.faults > old(flash.faults) || cancelled then 0x16 else 0
      ensures active <==> status == 0
      ensures status == 0 ==> declared == Declared(payload) && slots[mode].data == [] && flash.erases[mode] > old(flash.erases)[mode]
    {
      hide SlotOk, Filling;
      var total := Declared(payload);
      if total > capacity {
        active := false;
        return 0x15;
      }
      var r := ImageBegin(total);
      if r != SinkOk {
        active := false;
        return if r == SinkLimit then 0x15 else 0x16;
      }
      declared, received, active := total, 0, true;
      status := 0;
    }

    method ReceiveData(payload: seq<byte>) returns (status: byte)
      requires Valid() && Carries(2, payload)
      modifies `active, `received, `cancelled, `written, `slots, flash
      ensures Valid() && LeasesKept() && OtherKept() && NoErase() && (old(cancelled) ==> cancelled) && flash.faults >= old(flash.faults)
      ensures status == if !old(active) then 0x12 else if |payload| - 1 > RoundUp(declared) - |old(slots)[mode].data| then 0x16
                        else if |payload| > 1 && (flash.faults > old(flash.faults) || cancelled) then 0x16 else 0
      ensures active <==> status == 0
      ensures slots[mode] == old(slots)[mode] ||
              (old(active) && !old(slots)[mode].ended && slots[mode] == old(slots)[mode].(data := old(slots)[mode].data + payload[1..]))
      ensures status == 0 ==> slots[mode].data == old(slots)[mode].data + payload[1..]
    {
      hide SlotOk, Filling;
      if !active { return 0x12; }
      FillingBounds(flash.cells[mode], slots[mode], declared, received, written, erased);
      var count := |payload| - 1;
      if received > capacity || count > capacity - received {
        active := false;
        return 0x16;
      }
      if count != 0 {
        var r := ImageData(payload[1..]);
        if r != SinkOk {
          active := false;
          return 0x16;
        }
        received := received + count;
      }
      status := 0;
    }

    method ReceiveEnd() returns (status: byte)
      requires Valid()
      modifies `active, `cancelled, `slots, flash
      ensures Valid() && LeasesKept() && OtherKept() && NoErase() && (old(cancelled) ==> cancelled) && !active
      ensures flash.faults >= old(flash.faults)
      ensures status == if !old(active) || |old(slots)[mode].data| != declared then 0x12
                        else if flash.faults > old(flash.faults) || cancelled then 0x16 else 0
      ensures slots[mode] == old(slots)[mode] ||
              (old(active) && |slots[mode].data| == slots[mode].declared && slots[mode] == old(slots)[mode].(ended := true))
      ensures status == 0 ==> slots[mode].data == old(slots)[mode].data
      ensures status == 0 && slots[mode].data != [] ==> ReadBack(flash.cells[mode]) == Some(slots[mode].data)
    {
      hide SlotOk, Filling, ReadBack;
      if !active { return 0x12; }
      FillingBounds(flash.cells[mode], slots[mode], declared, received, written, erased);
      active := false;
      if received != declared { return 0x12; }
      var r := ImageEnd();
      status := if r == SinkOk then 0 else 0x16;
    }

    /** A profile change never touches flash and cannot move an open transfer to the other partition. */
    method ProfileCommand(parsed: Parsed, avatarExists: bool) returns (a: Answer)
      requires Valid()
      modifies `profile, `cancelled, `unsaved
      ensures Valid() && (old(cancelled) ==> cancelled) && a.kind == 1 && unsaved >= old(unsaved)
      ensures if cancelled then a.status != 1
              else a.status == ProfileStatus(old(profile), active, parsed, avatarExists, unsaved > old(unsaved))
      ensures a.event == if a.status == 1 then ProfileEvent else NoEvent
      ensures a.status == 1 ==> parsed.Fields?
      ensures profile == if a.status == 1 then Candidate(old(profile), parsed, avatarExists) else old(profile)
    {
      if parsed.Malformed? { return Answer(1, 0x13, NoEvent); }
      if parsed.NoFields? { return Answer(1, 0x14, NoEvent); }
      if parsed.modeField && active { return Answer(1, 0x1b, NoEvent); }
      var candidate := parsed.candidate;
      if parsed.avatarField && !avatarExists { candidate := candidate.(avatarName := profile.avatarName); }
      if candidate != profile {
        var saved := SaveProfile();
        if !saved { return Answer(1, 0x16, NoEvent); }
      }
      var allowed := SessionAllowed();
      if !allowed { return Answer(1, 0x12, NoEvent); }
      profile := candidate;
      a := Answer(1, 1, ProfileEvent);
    }

    method BeginCommand(payload: seq<byte>, busy: bool) returns (status: byte)
      requires Valid() && Begins(2, payload)
      modifies `active, `declared, `received, `capacity, `mode, `written, `erased, `cancelled, `slots, flash
      ensures Valid() && (old(cancelled) ==> cancelled) && flash.faults >= old(flash.faults) && StepOk(old(Now()), 2, payload, status, Now())
      ensures status == ImageStatus(old(Now()), payload, busy, flash.faults > old(flash.faults), false, cancelled)
    {
      hide SlotOk, Filling, ReadBack, StepOk, Wiped;
      ghost var m := Now();
      forall status: byte | status > 1 { Refused(m, 2, payload, status); }
      if profile.imgMode > 1 { return 0x12; }
      if busy || leases[profile.imgMode] != 0 { return 0x1b; }
      if !flash.usable[profile.imgMode] { return 0x16; }
      mode, capacity := profile.imgMode, |flash.cells[profile.imgMode]| - METADATA_SIZE;
      status := ReceiveBegin(payload);
      BeginStep(m, payload, status, Now());
    }

    /** An avatar that is complete also takes the place of the chosen built-in one. */
    method EndCommand(payload: seq<byte>) returns (status: byte)
      requires Valid() && Ends(2, payload) && |payload| <= StockProtocol.PAYLOAD_MAX
      modifies `profile, `active, `cancelled, `unsaved, `slots, flash
      ensures Valid() && (old(cancelled) ==> cancelled) && profile.imgMode == old(profile).imgMode
      ensures flash.faults >= old(flash.faults) && unsaved >= old(unsaved) && StepOk(old(Now()), 2, payload, status, Now())
      ensures status == ImageStatus(old(Now()), payload, false, flash.faults > old(flash.faults), unsaved > old(unsaved), cancelled)
      ensures profile == if status == 0 && mode == 0 then old(profile).(avatarName := []) else old(profile)
    {
      hide SlotOk, Filling, ReadBack, StepOk, ImageStep, SlotMoves, Wiped;
      ghost var m := Now();
      status := ReceiveEnd();
      EndStep(m, payload, status, Now());
      if status != 0 { return; }
      if mode == 0 {
        var saved := ChooseCustom();
        if !saved { return 0x16; }
      }
    }

    method ChooseCustom() returns (saved: bool)
      requires Valid()
      modifies `profile, `cancelled, `unsaved
      ensures Valid() && Now() == old(Now()) && old(unsaved) <= unsaved && (old(cancelled) ==> cancelled)
      ensures saved <==> !cancelled && unsaved == old(unsaved)
      ensures profile == if saved then old(profile).(avatarName := []) else old(profile)
    {
      hide SlotOk, Filling, ReadBack;
      saved := SaveProfile();
      if saved { profile := profile.(avatarName := []); }
    }

    method ImageCommand(payload: seq<byte>, busy: bool) returns (a: Answer)
      requires Valid()
      modifies `profile, `active, `declared, `received, `capacity, `mode, `written, `erased, `cancelled, `unsaved, `slots, flash
      ensures Valid() && (old(cancelled) ==> cancelled) && a.kind == 2 && profile.imgMode == old(profile).imgMode
      ensures flash.faults >= old(flash.faults) && unsaved >= old(unsaved)
      ensures StepOk(old(Now()), 2, payload, a.status, Now())
      ensures a.status == ImageStatus(old(Now()), payload, busy, flash.faults > old(flash.faults), unsaved > old(unsaved), cancelled)
      ensures a.event == if a.status != 0 || !Ends(2, payload) then NoEvent else if mode == 0 then AvatarReady else FullscreenReady
    {
      hide SlotOk, Filling, ReadBack, StepOk;
      ghost var m := Now();
      Refused(m, 2, payload, 0x12);
      if payload == [] || |payload| > StockProtocol.PAYLOAD_MAX { return Answer(2, 0x12, NoEvent); }
      if payload[0] == 0 && |payload| >= 5 {
        var status := BeginCommand(payload, busy);
        return Answer(2, status, NoEvent);
      }
      if payload[0] == 1 {
        var status := ReceiveData(payload);
        DataStep(m, payload, status, Now());
        return Answer(2, status, NoEvent);
      }
      if payload[0] != 2 { return Answer(2, 0x12, NoEvent); }
      var status := EndCommand(payload);
      a := Answer(2, status, if status != 0 then NoEvent else if mode == 0 then AvatarReady else FullscreenReady);
    }

    /** A disconnect forgets the transfer; it neither writes nor pretends a commit. */
    method Disconnect()
      requires Valid()
      modifies `active, `declared, `received, `sessionKnown, `written, `erased
      ensures Valid() && !active && !sessionKnown && Now() == old(Now()).Reset()
    {
      active, declared, received, sessionKnown, written, erased := false, 0, 0, false, 0, 0;
    }

    method HandleCurrent(kind: byte, payload: seq<byte>, parsed: Parsed, avatarExists: bool, busy: bool) returns (a: Answer)
      requires Valid()
      modifies `profile, `active, `declared, `received, `capacity, `mode, `written, `erased, `cancelled, `unsaved, `slots, flash
      ensures Valid() && (old(cancelled) ==> cancelled) && a.kind == kind
      ensures flash.faults >= old(flash.faults) && unsaved >= old(unsaved)
      ensures StepOk(old(Now()), kind, payload, a.status, Now())
      ensures initialized ==>
                a.status == if kind == 2 then ImageStatus(old(Now()), payload, busy, flash.faults > old(flash.faults), unsaved > old(unsaved),
                                                          cancelled)
                            else if kind != 1 then 0x18 else if |payload| > StockProtocol.PAYLOAD_MAX then 0x12
                            else if cancelled then a.status
                            else ProfileStatus(old(profile), old(Now()).view.active, parsed, avatarExists, unsaved > old(unsaved))
      ensures kind == 1 && a.status == 1 ==> parsed.Fields? && Now().view.mode == parsed.candidate.imgMode
      ensures a.event != NoEvent <==> (kind == 1 && a.status == 1) || (kind == 2 && a.status == 0 && Ends(kind, payload))
    {
      hide SlotOk, Filling, ReadBack, ImageStep, ImageStatus;
      if !initialized { return Answer(kind, 0x16, NoEvent); }
      if kind != 1 && kind != 2 { return Answer(kind, 0x18, NoEvent); }
      if kind == 2 {
        a := ImageCommand(payload, busy);
        return;
      }
      if |payload| > StockProtocol.PAYLOAD_MAX { return Answer(kind, 0x12, NoEvent); }
      a := ProfileCommand(parsed, avatarExists);
    }

    method EnterSession(current: u32)
      requires Valid()
      modifies `active, `declared, `received, `session, `sessionKnown, `written, `erased
      ensures Valid() && session == current && sessionKnown
      ensures Now() == if old(sessionKnown) && old(session) == current then old(Now()) else old(Now()).Reset()
    {
      if !sessionKnown || session != current {
        Disconnect();
        session, sessionKnown := current, true;
      }
    }

    /** One command under the session check: once it fails, at any point, the transfer is abandoned and the answer is 0x12. */
    method Guarded(kind: byte, payload: seq<byte>, parsed: Parsed, avatarExists: bool, busy: bool) returns (a: Answer)
      requires Valid() && initialized && !cancelled
      modifies `profile, `active, `declared, `received, `capacity, `mode, `written, `erased, `cancelled, `unsaved, `slots, `sessionKnown, flash
      ensures Valid() && a.kind == kind && (cancelled ==> !active)
      ensures flash.faults >= old(flash.faults) && unsaved >= old(unsaved)
      ensures StepOk(old(Now()), kind, payload, a.status, Now())
      ensures a.status == HandleStatus(old(Now()), true, old(profile), kind, payload, parsed, avatarExists, busy,
                                       flash.faults > old(flash.faults), unsaved > old(unsaved), cancelled)
      ensures kind == 1 && a.status == 1 ==> parsed.Fields? && Now().view.mode == parsed.candidate.imgMode
      ensures a.event != NoEvent <==> (kind == 1 && a.status == 1) || (kind == 2 && a.status == 0 && Ends(kind, payload))
    {
      hide SlotOk, Filling, ReadBack, ImageStatus, StepOk, ProfileStatus, Now, View, Valid, Sound, Open, ImageStep;
      a := Answer(kind, 0x12, NoEvent);
      ghost var m := Now();
      Refused(m, kind, payload, 0x12);
      var allowed := SessionAllowed();
      if allowed {
        a := HandleCurrent(kind, payload, parsed, avatarExists, busy);
      }
      allowed := SessionAllowed();
      if !allowed {
        CancelledStep(m, kind, payload, a.status, Now());
        Disconnect();
        a := Answer(kind, 0x12, NoEvent);
      }
    }

    /** The guarded entry: a new session starts from a reset transfer, and a cancelled call answers 0x12 without an event. */
    method Handle(current: u32, kind: byte, payload: seq<byte>, parsed: Parsed, avatarExists: bool, busy: bool) returns (a: Answer)
      requires Valid()
      modifies this, flash
      ensures Valid() && initialized == old(initialized) && leases == old(leases) && a.kind == kind
      ensures flash.faults >= old(flash.faults) && unsaved >= old(unsaved)
      ensures StepOk(old(Now()), kind, payload, a.status, Now())
      ensures a.status == HandleStatus(if old(sessionKnown) && old(session) == current then old(Now()) else old(Now()).Reset(),
                                       old(initialized), old(profile), kind, payload, parsed, avatarExists, busy,
                                       flash.faults > old(flash.faults), unsaved > old(unsaved), cancelled)
      ensures kind == 1 && a.status == 1 ==> parsed.Fields? && Now().view.mode == parsed.candidate.imgMode
      ensures a.event != NoEvent <==> (kind == 1 && a.status == 1) || (kind == 2 && a.status == 0 && Ends(kind, payload))
      ensures cancelled ==> !active
    {
      hide SlotOk, Filling, ReadBack, ImageStatus, StepOk, ProfileStatus, Now, View, Valid, Sound, Open, ImageStep;
      cancelled := false;
      ghost var m := Now();
      if !initialized {
        Refused(m, kind, payload, 0x16);
        return Answer(kind, 0x16, NoEvent);
      }
      EnterSession(current);
      a := Guarded(kind, payload, parsed, avatarExists, busy);
      if !(old(sessionKnown) && old(session) == current) { StepFromReset(m, kind, payload, a.status, Now()); }
    }

    /** A borrow maps a shown image of a partition that is not being received into; readable: its header could be read and its
        octets be mapped. */
    method Acquire(image: nat, readable: bool) returns (data: Option<seq<byte>>)
      requires Valid()
      modifies `leases
      ensures Valid()
      ensures data == if initialized && image < 2 && !(active && mode == image) && readable then ReadBack(flash.cells[image]) else None
      ensures data.Some? ==> image < 2
      ensures leases == if data.Some? then old(leases)[image := old(leases)[image] + 1] else old(leases)
    {
      hide SlotOk, Filling, ReadBack;
      if !initialized || image > 1 || (active && mode == image) { return None; }
      data := if readable then ReadBack(flash.cells[image]) else None;
      if data.Some? { leases := leases[image := leases[image] + 1]; }
    }

    method Release(image: nat)
      requires Valid() && image < 2 && leases[image] > 0
      modifies `leases
      ensures Valid() && leases == old(leases)[image := old(leases)[image] - 1]
    {
      hide SlotOk, Filling;
      leases := leases[image := leases[image] - 1];
    }
  }

  function HandleStatus(m: Moment, initialized: bool, profile: Profile, kind: byte, payload: seq<byte>, parsed: Parsed, avatarExists: bool,
                        busy: bool, io: bool, saving: bool, cancelled: bool): byte
    requires m.Sized()
  {
    if !initialized then 0x16
    else if cancelled then 0x12
    else if kind == 2 then ImageStatus(m, payload, busy, io, saving, false)
    else if kind != 1 then 0x18
    else if |payload| > StockProtocol.PAYLOAD_MAX then 0x12
    else ProfileStatus(profile, m.view.active, parsed, avatarExists, saving)
  }

  /** What an image command that was answered with success did. */
  predicate ImageStep(before: ImageView, payload: seq<byte>, after: ImageView) {
    after.mode == before.mode && after.target < 2 && payload != [] &&
    (if payload[0] == 0 then
       |payload| >= 5 && after.active && after.target == after.mode && after.declared == Read32(payload, 1) && after.data == []
     else if payload[0] == 1 then
       before.active && after.active && after.target == before.target && after.declared == before.declared &&
       after.data == before.data + payload[1..]
     else
       payload[0] == 2 && before.active && !after.active && after.target == before.target && after.declared == before.declared &&
       |before.data| == before.declared && after.data == before.data &&
       (after.data != [] ==> after.Shown(after.target) == Some(after.data)))
  }

  lemma NotBegun(cells: seq<byte>)
    ensures SlotOk(cells, Slot(false, false, 0, []))
  {
  }

  lemma FillingBounds(cells: seq<byte>, s: Slot, declared: nat, received: nat, written: nat, erased: nat)
    requires Filling(cells, s, declared, received, written, erased)
    ensures received == written == |s.data| <= erased && METADATA_SIZE + erased <= |cells| && !s.ended && s.begun
    ensures s.declared == declared
  {
  }

  // ----- runs

  datatype Op =
    | DoHandle(current: u32, kind: byte, payload: seq<byte>, parsed: Parsed, avatarExists: bool, busy: bool)
    | DoDisconnect | DoAcquire(image: nat, readable: bool) | DoRelease(image: nat)

  datatype Reply = Answered(answer: Answer) | Lent(data: Option<seq<byte>>) | Done

  /** ready: the receiver's start-up succeeded, which none of these operations changes. */
  predicate OpOk(ready: bool, m: Moment, op: Op, reply: Reply, n: Moment) {
    m.Sized() && n.Sized() &&
    match op
    case DoHandle(_, kind, payload, _, _, _) => reply.Answered? && StepOk(m, kind, payload, reply.answer.status, n)
    case DoDisconnect => n == m.Reset()
    case DoAcquire(i, readable) =>
      n == m.(leases := n.leases) && reply.Lent? &&
      reply.data == (if ready && i < 2 && !m.Receiving(i) && readable then ReadBack(m.cells[i]) else None) &&
      n.leases == if reply.data.Some? then m.leases[i := m.leases[i] + 1] else m.leases
    case DoRelease(i) => n == m.(leases := if i < 2 && m.leases[i] > 0 then m.leases[i := m.leases[i] - 1] else m.leases)
  }

  predicate MomentOk(m: Moment) { m.Sized() && forall i | 0 <= i < 2 :: SlotOk(m.cells[i], m.slots[i]) }

  predicate Traced(ready: bool, ops: seq<Op>, replies: seq<Reply>, trace: seq<Moment>) {
    |replies| == |ops| && |trace| == |ops| + 1 && (forall k | 0 <= k <= |ops| :: MomentOk(trace[k])) &&
    forall k | 0 <= k < |ops| :: OpOk(ready, trace[k], ops[k], replies[k], trace[k + 1])
  }

  method Execute(c: Content, op: Op) returns (reply: Reply)
    requires c.Valid()
    modifies c, c.flash
    ensures c.Valid() && c.initialized == old(c.initialized) && MomentOk(c.Now()) && OpOk(c.initialized, old(c.Now()), op, reply, c.Now())
  {
    hide StepOk, ImageStep, SlotOk, ReadBack;
    match op
    case DoHandle(current, kind, payload, parsed, avatarExists, busy) =>
      var a := c.Handle(current, kind, payload, parsed, avatarExists, busy);
      reply := Answered(a);
    case DoDisconnect =>
      c.Disconnect();
      reply := Done;
    case DoAcquire(image, readable) =>
      var data := c.Acquire(image, readable);
      reply := Lent(data);
    case DoRelease(image) =>
      if image < 2 && c.leases[image] > 0 { c.Release(image); }
      reply := Done;
  }

  /** Any run of commands, disconnects, loans and returns, with what each was answered and what it left. */
  method Run(c: Content, ops: seq<Op>) returns (replies: seq<Reply>, ghost trace: seq<Moment>)
    requires c.Valid()
    modifies c, c.flash
    ensures c.Valid() && Traced(c.initialized, ops, replies, trace) && trace[0] == old(c.Now()) && trace[|ops|] == c.Now()
  {
    hide OpOk, SlotOk, ReadBack;
    replies, trace := [], [c.Now()];
    for n := 0 to |ops|
      invariant c.Valid() && c.initialized == old(c.initialized) && Traced(c.initialized, ops[..n], replies, trace)
      invariant trace[0] == old(c.Now()) && trace[n] == c.Now()
    {
      var reply := Execute(c, ops[n]);
      replies, trace := replies + [reply], trace + [c.Now()];
    }
    assert ops[..|ops|] == ops;
  }

  predicate OnLoan(trace: seq<Moment>, i: nat, from: nat, to: nat) {
    i < 2 && to <= |trace| && forall j | from <= j < to :: trace[j].Sized() && trace[j].leases[i] > 0
  }

  lemma LoanStep(ready: bool, m: Moment, op: Op, reply: Reply, n: Moment, i: nat)
    requires OpOk(ready, m, op, reply, n) && i < 2 && m.leases[i] > 0
    ensures n.cells[i] == m.cells[i]
  {
    hide ImageStep, SlotMoves;
  }

  /** What is borrowed stays: from the loan on, for as long as any loan of that image is out, its partition reads back the
      very octets that were lent. */
  lemma {:induction false} LentStays(ready: bool, ops: seq<Op>, replies: seq<Reply>, trace: seq<Moment>, k: nat, n: nat)
    requires Traced(ready, ops, replies, trace) && k < n <= |ops| && ops[k].DoAcquire? && replies[k].Lent? && replies[k].data.Some?
    requires OnLoan(trace, ops[k].image, k + 1, n)
    ensures trace[n].Sized() && trace[n].cells[ops[k].image] == trace[k].cells[ops[k].image]
    ensures ReadBack(trace[n].cells[ops[k].image]) == replies[k].data
    decreases n
  {
    hide ReadBack, SlotOk, MomentOk, StepOk;
    assert OpOk(ready, trace[n - 1], ops[n - 1], replies[n - 1], trace[n]);
    if n > k + 1 {
      LentStays(ready, ops, replies, trace, k, n - 1);
      LoanStep(ready, trace[n - 1], ops[n - 1], replies[n - 1], trace[n], ops[k].image);
    }
  }

  /** The octets of the image data commands that were answered with success, in order. */
  function Pieces(ops: seq<Op>, replies: seq<Reply>, from: nat, to: nat): seq<byte>
    requires to <= |ops| == |replies|
  {
    if from >= to then []
    else
      var op, reply := ops[to - 1], replies[to - 1];
      Pieces(ops, replies, from, to - 1) +
      if op.DoHandle? && Carries(op.kind, op.payload) && reply.Answered? && reply.answer.status == 0 then op.payload[1..] else []
  }

  /** Operation b erased partition i, and nothing has tried to erase it again. */
  predicate BegunAt(ops: seq<Op>, trace: seq<Moment>, i: nat, b: nat, n: nat) {
    b < n <= |ops| && |trace| == |ops| + 1 && i < 2 && (forall k | 0 <= k <= |ops| :: trace[k].Sized()) &&
    trace[b + 1].erases[i] > trace[b].erases[i] &&
    forall k | b < k <= n :: trace[k].erases[i] == trace[b + 1].erases[i] && trace[k].spoiled[i] == trace[b + 1].spoiled[i]
  }

  /** An END met exactly the pieces sent since operation b. */
  predicate EndedWith(ops: seq<Op>, replies: seq<Reply>, b: nat, e: nat, n: nat, data: seq<byte>)
    requires |ops| == |replies|
  {
    b < e < n <= |ops| && ops[e].DoHandle? && Ends(ops[e].kind, ops[e].payload) && data == Pieces(ops, replies, b + 1, e)
  }

  ghost predicate SentSince(ops: seq<Op>, replies: seq<Reply>, m: Moment, i: nat, b: nat, n: nat)
    requires |ops| == |replies| && b < n <= |ops| && i < 2 && m.Sized()
  {
    var s := m.slots[i];
    ops[b].DoHandle? && Begins(ops[b].kind, ops[b].payload) && s.begun && s.declared == Declared(ops[b].payload) &&
    (m.Receiving(i) ==> !s.ended && s.data == Pieces(ops, replies, b + 1, n)) &&
    (s.ended ==> |s.data| == s.declared && exists e: nat :: EndedWith(ops, replies, b, e, n, s.data))
  }

  lemma SentNext(ready: bool, ops: seq<Op>, replies: seq<Reply>, trace: seq<Moment>, i: nat, b: nat, n: nat)
    requires Traced(ready, ops, replies, trace) && BegunAt(ops, trace, i, b, n + 1) && b < n < |ops|
    requires SentSince(ops, replies, trace[n], i, b, n)
    ensures SentSince(ops, replies, trace[n + 1], i, b, n + 1)
  {
    hide SlotOk, ReadBack, ImageStep, StoredAt;
    assert OpOk(ready, trace[n], ops[n], replies[n], trace[n + 1]);
    var s, t := trace[n].slots[i], trace[n + 1].slots[i];
    if t.ended && s.ended {
      var e: nat :| EndedWith(ops, replies, b, e, n, s.data);
      assert EndedWith(ops, replies, b, e, n + 1, s.data);
    } else if t.ended {
      assert EndedWith(ops, replies, b, n, n + 1, t.data);
    }
  }

  lemma {:induction false} SentAlways(ready: bool, ops: seq<Op>, replies: seq<Reply>, trace: seq<Moment>, i: nat, b: nat, n: nat)
    requires Traced(ready, ops, replies, trace) && BegunAt(ops, trace, i, b, n)
    ensures SentSince(ops, replies, trace[n], i, b, n)
    decreases n
  {
    hide SlotOk, ReadBack, ImageStep, SentSince;
    if n > b + 1 {
      SentAlways(ready, ops, replies, trace, i, b, n - 1);
      SentNext(ready, ops, replies, trace, i, b, n - 1);
    } else {
      assert OpOk(ready, trace[b], ops[b], replies[b], trace[b + 1]);
      SentFirst(ready, ops, replies, trace, i, b);
    }
  }

  lemma SentFirst(ready: bool, ops: seq<Op>, replies: seq<Reply>, trace: seq<Moment>, i: nat, b: nat)
    requires Traced(ready, ops, replies, trace) && BegunAt(ops, trace, i, b, b + 1)
    ensures SentSince(ops, replies, trace[b + 1], i, b, b + 1)
  {
    hide SlotOk, ReadBack, ImageStep;
    assert OpOk(ready, trace[b], ops[b], replies[b], trace[b + 1]);
  }

  /** Over any run: once a BEGIN has erased a partition, and for as long as nothing tries to erase it again, it shows an image
      only if an END came, and then it holds, in order, the octets of all data commands answered with success between the two,
      which are as many as the BEGIN declared. */
  lemma ShownWasSent(ready: bool, ops: seq<Op>, replies: seq<Reply>, trace: seq<Moment>, i: nat, b: nat, n: nat)
    requires Traced(ready, ops, replies, trace) && BegunAt(ops, trace, i, b, n) && ShowsImage(trace[n].cells[i])
    ensures ops[b].DoHandle? && Begins(ops[b].kind, ops[b].payload)
    ensures exists e: nat, data: seq<byte> ::
              EndedWith(ops, replies, b, e, n, data) && |data| == Declared(ops[b].payload) && StoredAt(trace[n].cells[i], data)
  {
    hide SlotOk, ReadBack, ImageStep, StoredAt, ShowsImage;
    SentAlways(ready, ops, replies, trace, i, b, n);
    assert MomentOk(trace[n]);
    ShownIsComplete(trace[n].cells[i], trace[n].slots[i]);
    var data := trace[n].slots[i].data;
    var e: nat :| EndedWith(ops, replies, b, e, n, data);
  }
}
