/** End-to-end wallet synchronisation: the companion, an in-order link, the device's worker and its store. Status reads,
    worker steps, housekeeping ticks and the end of the session interleave arbitrarily. */
module WalletSync {
  import opened Bytes
  import opened WalletTransfer
  import opened BleProtocol
  import WalletCore
  import Crc32

  datatype Staging = Closed | Opened(length: nat, crc: u32, bytes: seq<byte>)
  datatype Work = Resting | Executing(action: Action, own: bool) | Executed(action: Action, own: bool, ok: bool)
  datatype Phase = Writing | Polling | Finished | Broken

  /** The package to deliver, where it is cut, and the status the companion read before starting. */
  datatype Delivery = Delivery(p: seq<byte>, cuts: seq<nat>, baseline: Reported) {
    predicate Valid() {
      WalletCore.HEADER_SIZE <= |p| <= WalletCore.MAX_SIZE && |cuts| >= 2 && cuts[0] == 0 && cuts[|cuts| - 1] == |p| && CutsAscend(cuts, |p|)
    }

    function Crc(): u32 { Crc32.Crc(0, p) }

    function Sent(): seq<seq<byte>>
      requires Valid()
    {
      Frames(p, cuts)
    }
  }

  /** `queue` holds this session's accepted writes, `live` says the session is still the current secure one, `began` that
      the device accepted this session's BEGIN, and `active` is the package of the active snapshot. */
  datatype System = System(frame: nat, phase: Phase, changed: bool, queue: seq<seq<byte>>, live: bool, began: bool,
                           transfer: Transfer, work: Work, staging: Staging, active: seq<byte>)

  datatype StoreView = StoreView(staging: Staging, active: seq<byte>)

  /** What the worker's store call may do. */
  predicate StoreCall(action: Action, ok: bool, before: StoreView, after: StoreView) {
    match action
    case BeginAction(length, crc) => after == StoreView(if ok then Opened(length, crc, []) else Closed, before.active)
    case DataAction(offset, data) =>
      after.active == before.active &&
      (if ok then before.staging.Opened? && |before.staging.bytes| == offset && offset + |data| <= before.staging.length &&
                  after.staging == before.staging.(bytes := before.staging.bytes + data)
       else after.staging == before.staging)
    case CommitAction =>
      if ok then before.staging.Opened? && |before.staging.bytes| == before.staging.length && after.staging == Closed &&
                 WalletCore.Judge(before.staging.bytes, before.staging.crc).Accepted? && after.active == before.staging.bytes
      else after.active == before.active && (after.staging == Closed || after.staging == before.staging)
    case _ => false
  }

  /** The companion writes the current frame; the device may refuse it, and the acknowledgement may be lost. */
  predicate WriteStep(d: Delivery, s: System, t: System, accepted: bool, confirmed: bool)
    requires d.Valid()
  {
    s.phase.Writing? && s.frame < |d.Sent()| &&
    t == s.(phase := if s.live && accepted && confirmed then Polling else Broken,
            queue := if s.live && accepted then s.queue + [d.Sent()[s.frame]] else s.queue)
  }

  function OffsetAfter(f: seq<byte>): nat
    requires |f| >= 5
  {
    Read32(f, 1) + |f| - 5
  }

  function Decide(d: Delivery, s: System, late: bool): (Verdict, bool)
    requires d.Valid() && s.frame < |d.Sent()|
  {
    var f := d.Sent()[s.frame];
    var reported := Report(s.transfer.status);
    if |f| == 0 then (Fail, s.changed)
    else if f[0] == MSG_BEGIN then ObserveBegin(d.baseline, s.changed, reported, |d.p|, late)
    else (NextForFrame(reported, f[0], |d.p|, if f[0] == MSG_DATA && |f| >= 5 then OffsetAfter(f) else 0), s.changed)
  }

  /** The companion reads the status; outside the session the read is refused. */
  predicate ReadStep(d: Delivery, s: System, t: System, late: bool)
    requires d.Valid()
  {
    s.phase.Polling? && s.frame < |d.Sent()| &&
    (if !s.live then t == s.(phase := Broken)
     else
       var (verdict, changed) := Decide(d, s, late);
       match verdict
       case Poll => t == s.(changed := changed)
       case SendNext => t == s.(changed := changed, frame := s.frame + 1, phase := Writing)
       case Done => t == s.(phase := Finished)
       case Fail => t == s.(phase := Broken))
  }

  /** The worker takes a queued write; one of an ended session is dropped. */
  predicate TakeStep(s: System, t: System) {
    s.work.Resting? && s.queue != [] &&
    (if !s.live then t == s.(queue := s.queue[1..])
     else
       var o := Input(s.transfer, true, s.queue[0]);
       var u := s.(queue := s.queue[1..], transfer := o.transfer, began := s.began || o.action.BeginAction?);
       if o.result.Retry? || o.action.NoAction? then t == u
       else if o.action.AbortAction? then t == u.(staging := Closed)
       else t == u.(work := Executing(o.action, true)))
  }

  predicate StoreStep(s: System, t: System, ok: bool) {
    s.work.Executing? && StoreCall(s.work.action, ok, StoreView(s.staging, s.active), StoreView(t.staging, t.active)) &&
    t == s.(work := Executed(s.work.action, s.work.own, ok), staging := t.staging, active := t.active)
  }

  predicate CompleteStep(s: System, t: System, fault: Fault) {
    s.work.Executed? &&
    var valid := s.work.own && s.live;
    var lasting := valid || s.work.action.CommitAction?;
    t == s.(work := Resting, transfer := Complete(s.transfer, s.work.action, s.work.ok && lasting, fault),
            staging := if !s.work.ok || !lasting then Closed else s.staging)
  }

  /** The tick handles an idle timeout, or the cleanup a previous disconnect left pending. */
  predicate TickStep(s: System, t: System, timeout: bool) {
    s.work.Resting? &&
    t == s.(transfer := if timeout then TimedOut(s.transfer) else Disconnected(s.transfer), staging := Closed)
  }

  predicate CloseStep(s: System, t: System) { t == s.(live := false) }

  ghost predicate Next(d: Delivery, s: System, t: System)
    requires d.Valid()
  {
    (exists accepted, confirmed :: WriteStep(d, s, t, accepted, confirmed)) || (exists late :: ReadStep(d, s, t, late)) ||
    TakeStep(s, t) || (exists ok :: StoreStep(s, t, ok)) || (exists fault :: CompleteStep(s, t, fault)) ||
    (exists timeout :: TickStep(s, t, timeout)) || CloseStep(s, t)
  }

  /** The transfer state agrees with what the worker is doing. */
  predicate Coherent(t: Transfer, w: Work) {
    match w
    case Resting => t.pending == NoKind && !t.status.state.Busy?
    case _ => t.pending == w.action.Kind() &&
              match w.action
              case BeginAction(_, _) => t.status.state.Busy?
              case CommitAction => t.status.state.Busy?
              case DataAction(_, _) => Open(t)
              case _ => false
  }

  /** A new session finds the transfer in any state, possibly with an older session's action still in flight. */
  predicate Start(s: System) {
    s.frame == 0 && s.phase.Writing? && !s.changed && s.queue == [] && s.live && !s.began && Coherent(s.transfer, s.work) &&
    (s.work.Resting? || !s.work.own)
  }

  ghost predicate Run(d: Delivery, run: seq<System>)
    requires d.Valid()
  {
    |run| > 0 && Start(run[0]) && forall i :: 0 <= i < |run| - 1 ==> Next(d, run[i], run[i + 1])
  }

  // ----- the invariant

  function SentCount(s: System): nat { if s.phase.Writing? then s.frame else s.frame + 1 }

  function Taken(s: System): int { SentCount(s) - |s.queue| }

  predicate QueueOk(d: Delivery, s: System)
    requires d.Valid()
  {
    s.frame < |d.Sent()| && 0 <= Taken(s) && s.queue == d.Sent()[Taken(s)..SentCount(s)]
  }

  /** BEGIN is still queued or unwritten: whatever the device shows is left over from before. */
  predicate Waiting(s: System) {
    s.frame <= 1 && !s.began && (s.work.Resting? || !s.work.own) &&
    (s.frame == 1 ==> (s.work.Resting? || s.work.action.DataAction?) && !s.transfer.status.state.CommittedState? &&
                      !s.transfer.status.state.Busy? && (Open(s.transfer) ==> s.transfer.status.received == 0))
  }

  /** The device refused or abandoned this transfer; nothing of it can commit any more. */
  predicate Dead(s: System) { s.work.Resting? && (s.transfer.status.state.Idle? || s.transfer.status.state.Failed?) }

  predicate Accepted(d: Delivery) { WalletCore.Judge(d.p, d.Crc()).Accepted? }

  predicate Counters(t: Transfer, received: nat, expected: nat) { t.status.received == received && t.status.expected == expected }

  predicate HoldsPrefix(d: Delivery, s: System, n: nat) {
    n <= |d.p| && s.staging == Opened(|d.p|, d.Crc(), d.p[..n])
  }

  /** The device has processed exactly `k` of the frames, all successfully. */
  predicate Live(d: Delivery, s: System, k: int)
    requires d.Valid()
  {
    s.began && 1 <= k <= |d.cuts| + 1 &&
    match s.work
    case Resting =>
      if k <= |d.cuts| then Open(s.transfer) && Counters(s.transfer, d.cuts[k - 1], |d.p|) && HoldsPrefix(d, s, d.cuts[k - 1])
      else s.transfer.status.state.CommittedState? && s.active == d.p && Accepted(d)
    case Executing(a, own) => own && InFlight(d, s, k, a) && (a.DataAction? ==> HoldsPrefix(d, s, s.transfer.status.received)) &&
                              (a.CommitAction? ==> HoldsPrefix(d, s, |d.p|))
    case Executed(a, own, ok) => own && InFlight(d, s, k, a) &&
                                 (ok && a.BeginAction? ==> HoldsPrefix(d, s, 0)) &&
                                 (ok && a.DataAction? ==> HoldsPrefix(d, s, d.cuts[k - 1])) &&
                                 (ok && a.CommitAction? ==> s.active == d.p && Accepted(d))
  }

  predicate InFlight(d: Delivery, s: System, k: nat, a: Action)
    requires d.Valid() && 1 <= k <= |d.cuts| + 1
  {
    match a
    case BeginAction(length, crc) => k == 1 && length == |d.p| && crc == d.Crc() && Counters(s.transfer, 0, |d.p|)
    case DataAction(offset, data) =>
      2 <= k <= |d.cuts| && offset == d.cuts[k - 2] && data == d.p[d.cuts[k - 2]..d.cuts[k - 1]] &&
      Counters(s.transfer, d.cuts[k - 2], |d.p|) && s.transfer.pendingLength == |data|
    case CommitAction => k == |d.cuts| + 1 && Counters(s.transfer, |d.p|, |d.p|)
    case _ => false
  }

  predicate Tracked(d: Delivery, s: System)
    requires d.Valid()
  {
    QueueOk(d, s) && if Taken(s) == 0 then Waiting(s) else Dead(s) || Live(d, s, Taken(s))
  }

  predicate Inv(d: Delivery, s: System)
    requires d.Valid()
  {
    Coherent(s.transfer, s.work) && (s.live && (s.phase.Writing? || s.phase.Polling?) ==> Tracked(d, s))
  }

  // ----- what the frames carry

  lemma FrameFields(d: Delivery, i: nat)
    requires d.Valid() && i <= |d.cuts|
    ensures var f := d.Sent()[i];
            |f| >= 1 &&
            (i == 0 ==> |f| == 9 && f[0] == MSG_BEGIN && Read32(f, 1) == |d.p| && Read32(f, 5) == d.Crc()) &&
            (1 <= i < |d.cuts| ==> |f| > 5 && f[0] == MSG_DATA && Read32(f, 1) == d.cuts[i - 1] &&
                                   f[5..] == d.p[d.cuts[i - 1]..d.cuts[i]] && OffsetAfter(f) == d.cuts[i]) &&
            (i == |d.cuts| ==> f == [MSG_COMMIT])
  {
    hide Crc32.Crc;
    var f := d.Sent()[i];
    if i == 0 {
      assert f == BeginFrame(d.p);
      ReadLe32(f, 1, |d.p|);
      ReadLe32(f, 5, d.Crc());
    } else if i < |d.cuts| {
      assert f == DataFrame(d.cuts[i - 1], d.p[d.cuts[i - 1]..d.cuts[i]]);
      ReadLe32(f, 1, d.cuts[i - 1]);
    }
  }

  // ----- every step keeps the invariant

  lemma StartInv(d: Delivery, s: System)
    requires d.Valid() && Start(s)
    ensures Inv(d, s)
  {
  }

  lemma WriteInv(d: Delivery, s: System, t: System, accepted: bool, confirmed: bool)
    requires d.Valid() && Inv(d, s) && WriteStep(d, s, t, accepted, confirmed)
    ensures Inv(d, t) && !t.phase.Finished?
  {
    hide Frames, Crc32.Crc, WalletCore.Judge;
    if t.phase.Polling? {
      assert t.queue == d.Sent()[Taken(s)..SentCount(s)] + [d.Sent()[s.frame]] == d.Sent()[Taken(t)..SentCount(t)];
    }
  }

  /** The companion only moves past BEGIN on a fresh transfer of its own length, past DATA on its own running total. */
  lemma AdvanceMeans(d: Delivery, s: System, late: bool)
    requires d.Valid() && s.frame <= |d.cuts|
    ensures var (v, _) := Decide(d, s, late);
            (v.SendNext? ==> s.frame < |d.cuts| && (s.frame == 0 ==> Open(s.transfer) && s.transfer.status.received == 0) &&
                             (s.frame > 0 ==> Open(s.transfer) && s.transfer.status.received == d.cuts[s.frame] > 0)) &&
            (v.Done? ==> s.frame == |d.cuts| && s.transfer.status.state.CommittedState?)
  {
    hide Frames;
    FrameFields(d, s.frame);
  }

  lemma ReadAdvances(d: Delivery, s: System, t: System, late: bool)
    requires d.Valid() && s.live && s.phase.Polling? && Coherent(s.transfer, s.work) && Tracked(d, s) && ReadStep(d, s, t, late)
    ensures t.phase.Writing? || t.phase.Polling? ==> Tracked(d, t)
  {
    hide Frames, Crc32.Crc, WalletCore.Judge, Decide, InFlight, HoldsPrefix;
    AdvanceMeans(d, s, late);
    ViewUnchanged(d, s, t);
  }

  /** The invariant's view of the device does not depend on the companion's own position. */
  lemma ViewUnchanged(d: Delivery, s: System, t: System)
    requires d.Valid() && t.began == s.began && t.work == s.work && t.transfer == s.transfer && t.staging == s.staging
    requires t.active == s.active
    ensures forall k :: Live(d, s, k) <==> Live(d, t, k)
  {
    hide Frames, Crc32.Crc, WalletCore.Judge;
  }

  lemma ReadFinishes(d: Delivery, s: System, t: System, late: bool)
    requires d.Valid() && s.live && s.phase.Polling? && Coherent(s.transfer, s.work) && Tracked(d, s) && ReadStep(d, s, t, late)
    ensures t.phase.Finished? ==> t.began && t.live && t.active == d.p && Accepted(d)
  {
    hide Frames, Crc32.Crc, WalletCore.Judge, Decide, HoldsPrefix;
    AdvanceMeans(d, s, late);
  }

  lemma ReadInv(d: Delivery, s: System, t: System, late: bool)
    requires d.Valid() && Inv(d, s) && ReadStep(d, s, t, late)
    ensures Inv(d, t)
    ensures t.phase.Finished? ==> t.began && t.live && t.active == d.p && Accepted(d)
  {
    hide Tracked, Decide, Accepted;
    if s.live {
      ReadAdvances(d, s, t, late);
      ReadFinishes(d, s, t, late);
    }
  }

  lemma TakeQueue(d: Delivery, s: System, t: System)
    requires d.Valid() && QueueOk(d, s) && |s.queue| > 0 && t.queue == s.queue[1..] && t.frame == s.frame && t.phase == s.phase
    ensures QueueOk(d, t) && Taken(t) == Taken(s) + 1 <= |d.cuts| + 1 && s.queue[0] == d.Sent()[Taken(s)]
  {
    hide Frames;
  }

  lemma TakeBegin(d: Delivery, s: System, t: System)
    requires d.Valid() && Coherent(s.transfer, s.work) && Tracked(d, s) && s.live && TakeStep(s, t) && Taken(s) == 0
    ensures Coherent(t.transfer, t.work) && Tracked(d, t)
  {
    hide Frames, Crc32.Crc, WalletCore.Judge, QueueOk, HoldsPrefix;
    TakeQueue(d, s, t);
    FrameFields(d, 0);
  }

  lemma TakeLater(d: Delivery, s: System, t: System)
    requires d.Valid() && Coherent(s.transfer, s.work) && Tracked(d, s) && s.live && TakeStep(s, t) && Taken(s) > 0
    ensures Coherent(t.transfer, t.work) && Tracked(d, t)
  {
    hide Frames, Crc32.Crc, WalletCore.Judge, QueueOk;
    TakeQueue(d, s, t);
    FrameFields(d, Taken(s));
  }

  lemma TakeInv(d: Delivery, s: System, t: System)
    requires d.Valid() && Inv(d, s) && TakeStep(s, t)
    ensures Inv(d, t) && t.phase == s.phase
  {
    hide Tracked, Frames, InputBegin, InputData, InputCommit;
    if s.live && (s.phase.Writing? || s.phase.Polling?) {
      if Taken(s) == 0 { TakeBegin(d, s, t); } else { TakenSome(d, s); TakeLater(d, s, t); }
    } else {
      TakeCoherent(s, t);
    }
  }

  lemma TakenSome(d: Delivery, s: System)
    requires d.Valid() && Tracked(d, s)
    ensures Taken(s) >= 0
  {
  }

  lemma TakeCoherent(s: System, t: System)
    requires Coherent(s.transfer, s.work) && TakeStep(s, t)
    ensures Coherent(t.transfer, t.work)
  {
  }

  lemma QueueSame(d: Delivery, s: System, t: System)
    requires d.Valid() && t.frame == s.frame && t.phase == s.phase && t.queue == s.queue
    ensures QueueOk(d, s) <==> QueueOk(d, t)
    ensures Taken(s) == Taken(t)
  {
  }

  lemma StoreInv(d: Delivery, s: System, t: System, ok: bool)
    requires d.Valid() && Inv(d, s) && StoreStep(s, t, ok)
    ensures Inv(d, t) && t.phase == s.phase
  {
    hide Frames, Crc32.Crc, WalletCore.Judge, QueueOk;
    QueueSame(d, s, t);
    var k := Taken(s);
    if 2 <= k <= |d.cuts| { assert d.p[..d.cuts[k - 2]] + d.p[d.cuts[k - 2]..d.cuts[k - 1]] == d.p[..d.cuts[k - 1]]; }
    assert d.p[..|d.p|] == d.p;
  }

  lemma PrefixSame(d: Delivery, s: System, t: System)
    ensures t.staging == s.staging ==> forall n: nat :: HoldsPrefix(d, s, n) <==> HoldsPrefix(d, t, n)
  {
  }

  lemma CompleteInv(d: Delivery, s: System, t: System, fault: Fault)
    requires d.Valid() && Inv(d, s) && CompleteStep(s, t, fault)
    ensures Inv(d, t) && t.phase == s.phase
  {
    hide Frames, Crc32.Crc, WalletCore.Judge, QueueOk, HoldsPrefix;
    QueueSame(d, s, t);
    PrefixSame(d, s, t);
  }

  lemma TickInv(d: Delivery, s: System, t: System, timeout: bool)
    requires d.Valid() && Inv(d, s) && TickStep(s, t, timeout)
    ensures Inv(d, t) && t.phase == s.phase
  {
    hide Frames, Crc32.Crc, WalletCore.Judge, QueueOk;
    QueueSame(d, s, t);
  }

  lemma CloseInv(d: Delivery, s: System, t: System)
    requires d.Valid() && Inv(d, s) && CloseStep(s, t)
    ensures Inv(d, t)
  {
  }

  lemma NextInv(d: Delivery, s: System, t: System)
    requires d.Valid() && Inv(d, s) && Next(d, s, t)
    ensures Inv(d, t)
    ensures t.phase.Finished? && !s.phase.Finished? ==> t.began && t.live && t.active == d.p && Accepted(d)
  {
    hide Inv, WriteStep, ReadStep, TakeStep, StoreStep, CompleteStep, TickStep;
    if accepted, confirmed :| WriteStep(d, s, t, accepted, confirmed) { WriteInv(d, s, t, accepted, confirmed); }
    else if late :| ReadStep(d, s, t, late) { ReadInv(d, s, t, late); }
    else if TakeStep(s, t) { TakeInv(d, s, t); }
    else if ok :| StoreStep(s, t, ok) { StoreInv(d, s, t, ok); }
    else if fault :| CompleteStep(s, t, fault) { CompleteInv(d, s, t, fault); }
    else if timeout :| TickStep(s, t, timeout) { TickInv(d, s, t, timeout); }
    else { CloseInv(d, s, t); }
  }

  lemma {:induction false} RunInv(d: Delivery, run: seq<System>, i: nat)
    requires d.Valid() && Run(d, run) && i < |run|
    ensures Inv(d, run[i])
  {
    hide Next, Inv;
    if i == 0 {
      StartInv(d, run[0]);
    } else {
      RunInv(d, run, i - 1);
      assert Next(d, run[i - 1], run[i - 1 + 1]);
      NextInv(d, run[i - 1], run[i]);
    }
  }

  /** A companion that reports success finished a transfer whose BEGIN this device accepted; at that moment the active
      snapshot is its package octet for octet, and the device has validated it. */
  lemma SyncDelivers(d: Delivery, run: seq<System>, i: nat)
    requires d.Valid() && Run(d, run) && 0 < i < |run|
    requires run[i].phase.Finished? && !run[i - 1].phase.Finished?
    ensures run[i].began && run[i].active == d.p && WalletCore.Judge(d.p, Crc32.Crc(0, d.p)).Accepted?
  {
    hide Next, Inv, WalletCore.Judge, Crc32.Crc;
    RunInv(d, run, i - 1);
    assert Next(d, run[i - 1], run[i - 1 + 1]);
    NextInv(d, run[i - 1], run[i]);
  }

  /** While a transfer of the session is open and the worker rests, the received counter the companion can read is the
      number of octets staged, and they are the package's. */
  lemma ReceivedTracksStaging(d: Delivery, run: seq<System>, i: nat)
    requires d.Valid() && Run(d, run) && i < |run|
    requires var s := run[i]; s.live && s.began && (s.phase.Writing? || s.phase.Polling?) && s.work.Resting? && Open(s.transfer)
    ensures var s := run[i];
            s.staging.Opened? && |s.staging.bytes| == s.transfer.status.received && s.staging.bytes <= d.p
  {
    hide Next, Frames, WalletCore.Judge, Crc32.Crc;
    RunInv(d, run, i);
  }
}
