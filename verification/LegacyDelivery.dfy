/** The legacy image path end to end: the companion's coordinator, a lossless first-in first-out link, the device's parser
    and its image receiver. */
module LegacyDelivery {
  import opened Bytes
  import opened StockProtocol
  import opened StockTransferSession
  import opened StockContent

  /** One image sent to one partition; `modeJson` is the profile text that selects it. */
  datatype Job = Job(modeJson: seq<byte>, jpeg: seq<byte>, target: nat, mtu: nat, timeoutMs: nat) {
    predicate Valid() {
      |modeJson| <= PAYLOAD_MAX && 0 < |jpeg| < 0x8000_0000 && target < 2 && 23 <= mtu <= 517 && timeoutMs > 0
    }

    function Plan(): (p: Plan)
      requires Valid()
      ensures p.Valid() && |p.commands| >= 3
    {
      StockTransferSession.Plan.Plan(ImageCommands(modeJson, jpeg), mtu, timeoutMs)
    }
  }

  datatype System = System(sender: Sender, inbox: seq<seq<byte>>, stream: seq<byte>, responses: seq<(byte, byte)>, view: ImageView)

  /** How the device may answer a frame; only success answers promise anything. */
  predicate Answers(j: Job, before: ImageView, f: Frame, status: byte, after: ImageView) {
    (f.kind == 1 && f.payload == j.modeJson && status == 1 ==> after.mode == j.target) &&
    (f.kind == 2 && status == 0 ==> ImageStep(before, f.payload, after))
  }

  /** The image receiver's guarded entry answers as the model allows, provided the profile parser reads the mode text right. */
  method HandleFrame(j: Job, content: Content, session: u32, f: Frame, parsed: Parsed, avatarExists: bool, busy: bool) returns (a: Answer)
    requires content.Valid() && (f.payload == j.modeJson && parsed.Fields? ==> parsed.candidate.imgMode == j.target)
    modifies content, content.flash
    ensures content.Valid() && a.kind == f.kind && Answers(j, old(content.View()), f, a.status, content.View())
  {
    hide SlotOk, Filling, ReadBack, ImageStep, SlotMoves;
    a := content.Handle(session, f.kind, f.payload, parsed, avatarExists, busy);
  }

  predicate IssueStep(j: Job, s: System, t: System, now: int)
    requires j.Valid()
  {
    InRange(j.Plan(), s.sender) &&
    var (sender, w) := NextWrite(j.Plan(), s.sender, now);
    t == s.(sender := sender, inbox := if w.Some? then s.inbox + [w.value.1] else s.inbox)
  }

  predicate DeliverStep(j: Job, s: System, t: System, status: byte) {
    s.inbox != [] &&
    var fed := Feed(s.stream, s.inbox[0]);
    if fed.frame.Some? then
      Answers(j, s.view, fed.frame.value, status, t.view) &&
      t == s.(inbox := s.inbox[1..], stream := fed.buffer, view := t.view, responses := s.responses + [(fed.frame.value.kind, status)])
    else if fed.result != FrameOk then
      t == s.(inbox := s.inbox[1..], stream := fed.buffer, responses := s.responses + [(0, if fed.result.TooLarge? then 0x15 else 0x10)])
    else t == s.(inbox := s.inbox[1..], stream := fed.buffer)
  }

  predicate WriteDoneStep(j: Job, s: System, t: System, token: nat, success: bool, now: int)
    requires j.Valid()
  {
    InRange(j.Plan(), s.sender) && t == s.(sender := WriteCompleted(j.Plan(), s.sender, token, success, now))
  }

  predicate NotifyStep(j: Job, s: System, t: System, now: int)
    requires j.Valid()
  {
    InRange(j.Plan(), s.sender) && s.responses != [] &&
    t == s.(sender := Notified(j.Plan(), s.sender, [s.responses[0].0, s.responses[0].1], now), responses := s.responses[1..])
  }

  /** The device discards a partial frame after two idle seconds and says so. */
  predicate IdleStep(s: System, t: System) { s.stream != [] && t == s.(stream := [], responses := s.responses + [(0, 0x11)]) }

  predicate ClockStep(j: Job, s: System, t: System, cancel: bool, now: int)
    requires j.Valid()
  {
    t == s.(sender := if cancel then CancelledBy(s.sender) else CheckedTimeout(j.Plan(), s.sender, now))
  }

  ghost predicate Next(j: Job, s: System, t: System)
    requires j.Valid()
  {
    (exists now: int :: IssueStep(j, s, t, now)) || (exists status :: DeliverStep(j, s, t, status)) ||
    (exists token, success, now: int :: WriteDoneStep(j, s, t, token, success, now)) || (exists now: int :: NotifyStep(j, s, t, now)) ||
    IdleStep(s, t) || (exists cancel, now: int :: ClockStep(j, s, t, cancel, now))
  }

  predicate Start(s: System) { s.sender == NEW_SENDER && s.inbox == [] && s.stream == [] && s.responses == [] }

  ghost predicate Run(j: Job, run: seq<System>)
    requires j.Valid()
  {
    |run| > 0 && Start(run[0]) && forall i :: 0 <= i < |run| - 1 ==> Next(j, run[i], run[i + 1])
  }

  // ----- what the device has after the first k commands

  function Cut(j: Job, pieces: nat): nat { if pieces * IMAGE_CHUNK_MAX < |j.jpeg| then pieces * IMAGE_CHUNK_MAX else |j.jpeg| }

  lemma {:induction false} DataCommandAt(jpeg: seq<byte>, offset: nat, i: nat)
    requires offset <= |jpeg| && i < |DataCommands(jpeg, offset)|
    ensures var from := offset + i * IMAGE_CHUNK_MAX;
            from < |jpeg| &&
            DataCommands(jpeg, offset)[i] ==
              Command(Frame(2, [1] + jpeg[from..if from + IMAGE_CHUNK_MAX < |jpeg| then from + IMAGE_CHUNK_MAX else |jpeg|]), 0) &&
            (i + 1 == |DataCommands(jpeg, offset)| <==> from + IMAGE_CHUNK_MAX >= |jpeg|)
    decreases i
  {
    if i > 0 { DataCommandAt(jpeg, offset + IMAGE_CHUNK_MAX, i - 1); }
  }

  /** The commands in order: select the partition, BEGIN, the pieces, END. */
  lemma CommandAt(j: Job, k: nat)
    requires j.Valid() && k < |j.Plan().commands|
    ensures var n := |j.Plan().commands|;
            var c := j.Plan().commands[k];
            (k == 0 ==> c == Command(Frame(1, j.modeJson), 1)) &&
            (k == 1 ==> c == Command(Frame(2, BeginPayload(|j.jpeg|)), 0)) &&
            (2 <= k < n - 1 ==> c == Command(Frame(2, [1] + j.jpeg[Cut(j, k - 2)..Cut(j, k - 1)]), 0) && Cut(j, k - 2) < Cut(j, k - 1)) &&
            (k == n - 1 ==> k >= 3 && c == Command(Frame(2, [2]), 0) && Cut(j, k - 2) == |j.jpeg|)
  {
    var n := |j.Plan().commands|;
    if 2 <= k < n - 1 { DataCommandAt(j.jpeg, 0, k - 2); }
    if k == n - 1 { DataCommandAt(j.jpeg, 0, k - 3); }
  }

  predicate DeviceDone(j: Job, k: nat, v: ImageView)
    requires j.Valid()
  {
    var n := |j.Plan().commands|;
    (k >= 1 ==> v.mode == j.target) &&
    (2 <= k < n ==> v.active && v.target == j.target && v.declared == |j.jpeg| && v.data == j.jpeg[..Cut(j, k - 2)]) &&
    (k == n ==> v.Shown(j.target) == Some(j.jpeg))
  }

  lemma DeviceProgress(j: Job, k: nat, before: ImageView, status: byte, after: ImageView)
    requires j.Valid() && k < |j.Plan().commands| && DeviceDone(j, k, before)
    requires Answers(j, before, j.Plan().commands[k].frame, status, after) && status == j.Plan().commands[k].successStatus
    ensures DeviceDone(j, k + 1, after)
  {
    hide ImageCommands;
    CommandAt(j, k);
    if k == 1 { ReadLe32(BeginPayload(|j.jpeg|), 1, |j.jpeg|); }
    if 2 <= k < |j.Plan().commands| - 1 {
      assert j.jpeg[..Cut(j, k - 2)] + j.jpeg[Cut(j, k - 2)..Cut(j, k - 1)] == j.jpeg[..Cut(j, k - 1)];
    }
    assert j.jpeg[..|j.jpeg|] == j.jpeg;
  }

  // ----- the invariant

  function Current(j: Job, s: Sender): Command
    requires j.Valid() && s.command < |j.Plan().commands|
  {
    j.Plan().commands[s.command]
  }

  /** Fragments of the current command handed to the link so far. */
  function Issued(s: Sender): nat { if s.state.ReadyToWrite? then s.fragment else s.fragment + 1 }

  predicate AllNonEmpty(parts: seq<seq<byte>>) { forall i | 0 <= i < |parts| :: parts[i] != [] }

  predicate Running(j: Job, s: Sender)
    requires j.Valid()
  {
    !s.Terminal() && s.command < |j.Plan().commands| && s.fragment < |j.Plan().Parts(s.command)| &&
    (s.dispatched || (s.command == 0 && s.fragment == 0 && s.state.ReadyToWrite?))
  }

  /** The device holds a proper prefix of the current frame; the link holds the rest of what was issued. */
  predicate Partial(j: Job, s: System)
    requires j.Valid() && Running(j, s.sender)
  {
    s.responses == [] && s.sender.pending.None? && DeviceDone(j, s.sender.command, s.view) && AllNonEmpty(s.inbox) &&
    |s.stream| < |Encode(Current(j, s.sender).frame)| &&
    s.stream + Flatten(s.inbox) == Flatten(j.Plan().Parts(s.sender.command)[..Issued(s.sender)])
  }

  /** The device has handled the current frame; its one answer is on its way or already noted. */
  predicate Handled(j: Job, s: System)
    requires j.Valid() && Running(j, s.sender)
  {
    !s.sender.state.ReadyToWrite? && s.sender.fragment == |j.Plan().Parts(s.sender.command)| - 1 && s.stream == [] && s.inbox == [] &&
    ((|s.responses| == 1 && s.sender.pending.None? && s.responses[0].0 == Current(j, s.sender).frame.kind) ||
     (s.responses == [] && s.sender.pending.Some? && s.sender.state.WritingOut?)) &&
    ((if s.responses != [] then s.responses[0].1 else s.sender.pending.value) == Current(j, s.sender).successStatus ==>
       DeviceDone(j, s.sender.command + 1, s.view))
  }

  /** A parser error is the next notification the companion sees. */
  predicate Doomed(s: System) {
    s.responses != [] && GlobalError(s.responses[0].0, s.responses[0].1) && s.sender.dispatched && s.sender.pending.None?
  }

  predicate Inv(j: Job, s: System)
    requires j.Valid()
  {
    if s.sender.state.TransportComplete? then DeviceDone(j, |j.Plan().commands|, s.view) && s.stream == [] && s.inbox == []
    else s.sender.Terminal() || (Running(j, s.sender) && (Doomed(s) || Partial(j, s) || Handled(j, s)))
  }

  // ----- fragments of one frame

  lemma PartsOf(j: Job, k: nat)
    requires j.Valid() && k < |j.Plan().commands|
    ensures var parts, e := j.Plan().Parts(k), Encode(j.Plan().commands[k].frame);
            AllNonEmpty(parts) && |parts| > 0 && Flatten(parts) == e && j.Plan().commands[k].frame.kind != 0
  {
    hide ImageCommands;
    assert j.Plan().commands[k] in j.Plan().commands;
    FragmentsFlatten(Encode(j.Plan().commands[k].frame), j.mtu - 3);
    forall i | 0 <= i < |j.Plan().Parts(k)| ensures j.Plan().Parts(k)[i] != [] {
      assert j.Plan().Parts(k)[i] in j.Plan().Parts(k);
    }
  }

  lemma {:induction false} FlattenFront(parts: seq<seq<byte>>, n: nat)
    requires n <= |parts| && AllNonEmpty(parts)
    ensures Flatten(parts[..n]) <= Flatten(parts)
    ensures n < |parts| ==> |Flatten(parts[..n])| < |Flatten(parts)| && Flatten(parts[..n + 1]) == Flatten(parts[..n]) + parts[n]
    ensures n == |parts| ==> Flatten(parts[..n]) == Flatten(parts)
  {
    if n == 0 {
      if parts != [] { assert parts[..1][1..] == [] && Flatten(parts[..1]) == parts[0] + []; }
      assert parts[..0] == [];
    } else {
      FlattenFront(parts[1..], n - 1);
      assert parts[..n][1..] == parts[1..][..n - 1];
      if n < |parts| { assert parts[..n + 1][1..] == parts[1..][..n]; }
    }
  }

  lemma {:induction false} FlattenEmpty(parts: seq<seq<byte>>)
    requires AllNonEmpty(parts) && Flatten(parts) == []
    ensures parts == []
  {
  }

  // ----- every step keeps the invariant

  lemma IssuePartial(j: Job, s: System, t: System)
    requires j.Valid() && Running(j, s.sender) && Partial(j, s) && s.sender.state.ReadyToWrite? && t.sender.state.WritingOut?
    requires t.sender.command == s.sender.command && t.sender.fragment == s.sender.fragment && t.sender.dispatched
    requires t.sender.pending.None?
    requires t == s.(sender := t.sender, inbox := s.inbox + [j.Plan().Parts(s.sender.command)[s.sender.fragment]])
    ensures Partial(j, t)
  {
    hide ImageCommands, Fragments, Encode, DeviceDone, Flatten;
    var parts, f := j.Plan().Parts(s.sender.command), s.sender.fragment;
    PartsOf(j, s.sender.command);
    FlattenFront(parts, f);
    FlattenAppend(s.inbox, parts[f]);
    assert s.stream + (Flatten(s.inbox) + parts[f]) == (s.stream + Flatten(s.inbox)) + parts[f];
  }

  lemma IssueInv(j: Job, s: System, t: System, now: int)
    requires j.Valid() && Inv(j, s) && IssueStep(j, s, t, now)
    ensures Inv(j, t)
  {
    hide ImageCommands, Fragments, Encode, DeviceDone, Flatten, Partial;
    if !s.sender.Terminal() && t.sender.state.WritingOut? && s.sender.state.ReadyToWrite? && !Doomed(s) {
      PendingNone(j, s);
      IssuePartial(j, s, t);
    } else if !Doomed(s) {
      PartialSame(j, s, t);
    }
  }

  lemma PendingNone(j: Job, s: System)
    requires j.Valid() && Running(j, s.sender) && Partial(j, s)
    ensures s.sender.pending.None? && s.responses == []
  {
  }

  /** The frame bookkeeping looks at the position only, not at clocks. */
  lemma PartialSame(j: Job, s: System, t: System)
    requires j.Valid() && t == s.(sender := t.sender)
    ensures (Running(j, s.sender) && Running(j, t.sender) && t.sender.command == s.sender.command &&
             t.sender.pending == s.sender.pending && Issued(t.sender) == Issued(s.sender)) ==> (Partial(j, s) <==> Partial(j, t))
  {
    hide ImageCommands, Fragments, Encode, DeviceDone, Flatten;
  }

  /** Delivering in the middle of a frame either lengthens the held prefix or completes exactly the current frame. */
  lemma DeliverPartial(j: Job, s: System, t: System, status: byte)
    requires j.Valid() && Running(j, s.sender) && Partial(j, s) && DeliverStep(j, s, t, status)
    ensures Partial(j, t) || Handled(j, t)
  {
    hide ImageCommands, Fragments, Encode, DeviceDone, ImageStep;
    var k := s.sender.command;
    var c, parts, x := Current(j, s.sender), j.Plan().Parts(k), s.inbox[0];
    PartsOf(j, k);
    FlattenFront(parts, Issued(s.sender));
    assert s.stream + Flatten(s.inbox) == (s.stream + x) + Flatten(s.inbox[1..]);
    assert s.stream + x <= Encode(c.frame);
    FeedEncoded(c.frame, s.stream, x);
    if |s.stream| + |x| == |Encode(c.frame)| {
      FlattenEmpty(s.inbox[1..]);
      if status == c.successStatus { DeviceProgress(j, k, s.view, status, t.view); }
    }
  }

  lemma DeliverInv(j: Job, s: System, t: System, status: byte)
    requires j.Valid() && Inv(j, s) && DeliverStep(j, s, t, status)
    ensures Inv(j, t)
  {
    hide ImageCommands, Fragments, Encode, DeviceDone, Partial, Feed, ImageStep;
    if !s.sender.Terminal() && !Doomed(s) && Partial(j, s) { DeliverPartial(j, s, t, status); }
  }

  lemma IdleInv(j: Job, s: System, t: System)
    requires j.Valid() && Inv(j, s) && IdleStep(s, t)
    ensures Inv(j, t)
  {
    hide ImageCommands, Fragments, Encode, DeviceDone;
  }

  /** Accepting the noted or delivered answer of a handled frame moves both sides to the next command. */
  lemma AcceptInv(j: Job, s: System, u: Sender, t: System, status: byte, now: int)
    requires j.Valid() && Running(j, s.sender) && s.stream == [] && s.inbox == []
    requires status == Current(j, s.sender).successStatus ==> DeviceDone(j, s.sender.command + 1, s.view)
    requires u.command == s.sender.command && u.dispatched
    requires t == s.(sender := Accepted(j.Plan(), u, status, now), responses := [])
    ensures Inv(j, t)
  {
    hide ImageCommands, Fragments, DeviceDone;
    var k := t.sender.command;
    if t.sender.state.ReadyToWrite? {
      PartsOf(j, k);
      assert j.Plan().Parts(k)[..0] == [];
    }
  }

  lemma WriteDoneInv(j: Job, s: System, t: System, token: nat, success: bool, now: int)
    requires j.Valid() && Inv(j, s) && WriteDoneStep(j, s, t, token, success, now)
    ensures Inv(j, t)
  {
    hide ImageCommands, Fragments, Encode, DeviceDone, Flatten, Partial;
    if !s.sender.Terminal() {
      PartialSame(j, s, t);
      var u := CheckedTimeout(j.Plan(), s.sender, now);
      if !Doomed(s) && u.state.WritingOut? && token == u.token && success && u.fragment + 1 == |j.Plan().Parts(u.command)| && u.pending.Some? {
        if Partial(j, s) { PendingNone(j, s); }
        AcceptInv(j, s, u.(state := WaitingResponse, pending := None), t, u.pending.value, now);
      }
    }
  }

  lemma NotifyInv(j: Job, s: System, t: System, now: int)
    requires j.Valid() && Inv(j, s) && NotifyStep(j, s, t, now)
    ensures Inv(j, t)
  {
    hide ImageCommands, Fragments, Encode, DeviceDone, Flatten, Partial;
    if !s.sender.Terminal() && !Doomed(s) {
      if Partial(j, s) { PendingNone(j, s); }
      PartsOf(j, s.sender.command);
      var u := CheckedTimeout(j.Plan(), s.sender, now);
      if u.state.WaitingResponse? { AcceptInv(j, s, u, t, s.responses[0].1, now); }
    }
  }

  lemma ClockInv(j: Job, s: System, t: System, cancel: bool, now: int)
    requires j.Valid() && Inv(j, s) && ClockStep(j, s, t, cancel, now)
    ensures Inv(j, t)
  {
    hide ImageCommands, Fragments, Encode, DeviceDone, Flatten, Partial;
    PartialSame(j, s, t);
  }

  lemma NextInv(j: Job, s: System, t: System)
    requires j.Valid() && Inv(j, s) && Next(j, s, t)
    ensures Inv(j, t)
  {
    hide Inv, IssueStep, DeliverStep, WriteDoneStep, NotifyStep, IdleStep, ClockStep;
    if now: int :| IssueStep(j, s, t, now) { IssueInv(j, s, t, now); }
    else if status :| DeliverStep(j, s, t, status) { DeliverInv(j, s, t, status); }
    else if token, success, now: int :| WriteDoneStep(j, s, t, token, success, now) { WriteDoneInv(j, s, t, token, success, now); }
    else if now: int :| NotifyStep(j, s, t, now) { NotifyInv(j, s, t, now); }
    else if IdleStep(s, t) { IdleInv(j, s, t); }
    else if cancel, now: int :| ClockStep(j, s, t, cancel, now) { ClockInv(j, s, t, cancel, now); }
  }

  lemma StartInv(j: Job, s: System)
    requires j.Valid() && Start(s)
    ensures Inv(j, s)
  {
    hide ImageCommands, Fragments;
    PartsOf(j, 0);
    assert j.Plan().Parts(0)[..0] == [];
  }

  lemma {:induction false} RunInv(j: Job, run: seq<System>, i: nat)
    requires j.Valid() && Run(j, run) && i < |run|
    ensures Inv(j, run[i])
  {
    hide Inv, Next;
    if i == 0 {
      StartInv(j, run[0]);
    } else {
      RunInv(j, run, i - 1);
      assert Next(j, run[i - 1], run[i - 1 + 1]);
      NextInv(j, run[i - 1], run[i]);
    }
  }

  /** A coordinator that reports the transport complete has put its image where it said: the selected partition reads back
      exactly the octets of the JPEG. */
  lemma ImageDelivered(j: Job, run: seq<System>, i: nat)
    requires j.Valid() && Run(j, run) && i < |run| && run[i].sender.state.TransportComplete?
    ensures run[i].view.Shown(j.target) == Some(j.jpeg) && run[i].view.mode == j.target
  {
    hide ImageCommands;
    RunInv(j, run, i);
  }
}
