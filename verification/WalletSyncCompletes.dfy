/** The end-to-end guarantee is not empty: an undisturbed delivery of a package the device accepts does complete. */
module WalletSyncCompletes {
  import opened Bytes
  import opened WalletTransfer
  import opened BleProtocol
  import opened WalletSync
  import WalletCore
  import Crc32

  /** The companion is about to write frame k; everything before it has been executed and acknowledged. */
  predicate AtFrame(d: Delivery, s: System, k: nat)
    requires d.Valid()
  {
    k <= |d.cuts| && s.frame == k && s.phase.Writing? && s.queue == [] && s.live && s.work.Resting? &&
    if k == 0 then s.transfer == FRESH
    else s.began && Open(s.transfer) && s.transfer.pending == NoKind && s.transfer.status.fault == NoFault &&
         Counters(s.transfer, d.cuts[k - 1], |d.p|) && HoldsPrefix(d, s, d.cuts[k - 1])
  }

  function Written(d: Delivery, s: System): System
    requires d.Valid() && s.frame < |d.Sent()|
  {
    s.(phase := Polling, queue := s.queue + [d.Sent()[s.frame]])
  }

  lemma WriteGoes(d: Delivery, s: System, k: nat)
    requires d.Valid() && AtFrame(d, s, k)
    ensures Next(d, s, Written(d, s)) && Written(d, s).queue == [d.Sent()[k]]
  {
    hide Frames;
    assert WriteStep(d, s, Written(d, s), true, true);
  }

  /** From the queued frame to the completed action, given what the action does to the store. */
  function Executed3(d: Delivery, s: System, o: Outcome, staging: Staging, active: seq<byte>): seq<System>
    requires d.Valid() && s.frame < |d.Sent()|
  {
    var s1 := Written(d, s);
    var s2 := s1.(queue := [], transfer := o.transfer, began := s1.began || o.action.BeginAction?, work := Executing(o.action, true));
    var s3 := s2.(work := Executed(o.action, true, true), staging := staging, active := active);
    var s4 := s3.(work := Resting, transfer := Complete(o.transfer, o.action, true, NoFault));
    [s1, s2, s3, s4]
  }

  lemma ExecuteGoes(d: Delivery, s: System, k: nat, o: Outcome, staging: Staging, active: seq<byte>)
    requires d.Valid() && AtFrame(d, s, k) && o == Input(s.transfer, true, d.Sent()[k]) && o.result.Accept?
    requires !o.action.NoAction? && !o.action.AbortAction?
    requires StoreCall(o.action, true, StoreView(s.staging, s.active), StoreView(staging, active))
    ensures var r := Executed3(d, s, o, staging, active); Next(d, s, r[0]) && Next(d, r[0], r[1]) && Next(d, r[1], r[2]) && Next(d, r[2], r[3])
  {
    hide Frames, Input, StoreCall, Complete, WriteStep, ReadStep, TickStep;
    WriteGoes(d, s, k);
    var r := Executed3(d, s, o, staging, active);
    assert r[0].queue[1..] == [];
    assert TakeStep(r[0], r[1]);
    assert StoreStep(r[1], r[2], true);
    assert CompleteStep(r[2], r[3], NoFault);
  }

  lemma BeginRound(d: Delivery, s: System) returns (r: seq<System>)
    requires d.Valid() && AtFrame(d, s, 0) && WalletCore.LengthAccepted(|d.p|)
    ensures Chain(d, s, r) && AtFrame(d, r[|r| - 1], 1)
  {
    hide Frames, Crc32.Crc;
    FrameFields(d, 0);
    var o := Input(s.transfer, true, d.Sent()[0]);
    var staging := Opened(|d.p|, d.Crc(), []);
    ExecuteGoes(d, s, 0, o, staging, s.active);
    var q := Executed3(d, s, o, staging, s.active);
    var t := q[3].(changed := Decide(d, q[3], false).1, frame := 1, phase := Writing);
    assert d.p[..0] == [];
    assert ReadStep(d, q[3], t, false);
    r := q + [t];
  }

  lemma DataRound(d: Delivery, s: System, k: nat) returns (r: seq<System>)
    requires d.Valid() && AtFrame(d, s, k) && 1 <= k < |d.cuts|
    ensures Chain(d, s, r) && AtFrame(d, r[|r| - 1], k + 1)
  {
    hide Frames, Crc32.Crc;
    FrameFields(d, k);
    var o := Input(s.transfer, true, d.Sent()[k]);
    var data := d.p[d.cuts[k - 1]..d.cuts[k]];
    assert o.action == DataAction(d.cuts[k - 1], data);
    var staging := s.staging.(bytes := s.staging.bytes + data);
    assert d.p[..d.cuts[k - 1]] + data == d.p[..d.cuts[k]];
    ExecuteGoes(d, s, k, o, staging, s.active);
    var q := Executed3(d, s, o, staging, s.active);
    var t := q[3].(frame := k + 1, phase := Writing);
    assert ReadStep(d, q[3], t, false);
    r := q + [t];
  }

  lemma CommitRound(d: Delivery, s: System) returns (r: seq<System>)
    requires d.Valid() && AtFrame(d, s, |d.cuts|) && WalletCore.Judge(d.p, d.Crc()).Accepted?
    ensures Chain(d, s, r) && r[|r| - 1].phase.Finished? && r[|r| - 1].active == d.p
  {
    hide Frames, Crc32.Crc, WalletCore.Judge;
    var k := |d.cuts|;
    FrameFields(d, k);
    assert d.p[..|d.p|] == d.p;
    var o := Input(s.transfer, true, d.Sent()[k]);
    ExecuteGoes(d, s, k, o, Closed, d.p);
    var q := Executed3(d, s, o, Closed, d.p);
    var t := q[3].(phase := Finished);
    assert ReadStep(d, q[3], t, false);
    r := q + [t];
  }

  /** r continues s, step by step. */
  ghost predicate Chain(d: Delivery, s: System, r: seq<System>)
    requires d.Valid()
  {
    |r| > 0 && Next(d, s, r[0]) && forall i :: 0 <= i < |r| - 1 ==> Next(d, r[i], r[i + 1])
  }

  lemma ChainJoins(d: Delivery, s: System, a: seq<System>, b: seq<System>)
    requires d.Valid() && Chain(d, s, a) && Chain(d, a[|a| - 1], b)
    ensures Chain(d, s, a + b)
  {
    hide Next;
    var c := a + b;
    forall i | 0 <= i < |c| - 1 ensures Next(d, c[i], c[i + 1]) {
      if i < |a| - 1 { assert Next(d, a[i], a[i + 1]); }
      else if i == |a| - 1 { assert c[i] == a[|a| - 1] && c[i + 1] == b[0]; }
      else { assert Next(d, b[i - |a|], b[i - |a| + 1]); }
    }
  }

  lemma {:induction false} RestCompletes(d: Delivery, s: System, k: nat) returns (r: seq<System>)
    requires d.Valid() && AtFrame(d, s, k) && 1 <= k && WalletCore.Judge(d.p, d.Crc()).Accepted?
    ensures Chain(d, s, r) && r[|r| - 1].phase.Finished? && r[|r| - 1].active == d.p
    decreases |d.cuts| - k
  {
    hide Next, Frames, Crc32.Crc, WalletCore.Judge;
    if k == |d.cuts| {
      r := CommitRound(d, s);
    } else {
      var a := DataRound(d, s, k);
      var b := RestCompletes(d, a[|a| - 1], k + 1);
      ChainJoins(d, s, a, b);
      r := a + b;
    }
  }

  /** From a fresh session there is a run in which the companion reports success, for every package the device accepts. */
  lemma DeliveryCompletes(d: Delivery, s: System) returns (run: seq<System>)
    requires d.Valid() && Start(s) && s.transfer == FRESH && s.work.Resting?
    requires WalletCore.LengthAccepted(|d.p|) && WalletCore.Judge(d.p, d.Crc()).Accepted?
    ensures Run(d, run) && run[0] == s && run[|run| - 1].phase.Finished? && run[|run| - 1].active == d.p
  {
    hide Next, Frames, Crc32.Crc, WalletCore.Judge;
    var a := BeginRound(d, s);
    var b := RestCompletes(d, a[|a| - 1], 1);
    ChainJoins(d, s, a, b);
    var c := a + b;
    run := [s] + c;
    forall i | 0 <= i < |run| - 1 ensures Next(d, run[i], run[i + 1]) {
      if i > 0 { assert Next(d, c[i - 1], c[i - 1 + 1]); }
    }
  }
}
