/** The legacy guarantee is not empty either: an undisturbed transfer of any image to a device that takes it does complete. */
module LegacyDeliveryCompletes {
  import opened Bytes
  import opened StockProtocol
  import opened StockTransferSession
  import opened StockContent
  import opened LegacyDelivery

  /** The companion is about to write fragment f of command k; the device holds the fragments before it, and nothing is on its way. */
  predicate AtFragment(j: Job, s: System, k: nat, f: nat)
    requires j.Valid()
  {
    k < |j.Plan().commands| && f < |j.Plan().Parts(k)| && DeviceDone(j, k, s.view) && s.inbox == [] && s.responses == [] &&
    s.stream == Flatten(j.Plan().Parts(k)[..f]) &&
    s.sender == s.sender.(state := ReadyToWrite, command := k, fragment := f, startedAt := 0, pending := None)
  }

  /** A view in which the device has done what the command asks. */
  function Taken(j: Job, k: nat, v: ImageView): ImageView
    requires j.Valid() && k < |j.Plan().commands|
  {
    var payload := j.Plan().commands[k].frame.payload;
    if k == 0 then v.(mode := j.target)
    else if k == 1 then v.(active := true, target := j.target, declared := |j.jpeg|, data := [])
    else if k < |j.Plan().commands| - 1 then if payload == [] then v else v.(data := v.data + payload[1..])
    else if j.target == 0 then v.(active := false, first := Some(v.data))
    else v.(active := false, second := Some(v.data))
  }

  lemma DeviceCan(j: Job, k: nat, v: ImageView)
    requires j.Valid() && k < |j.Plan().commands| && DeviceDone(j, k, v)
    ensures var c := j.Plan().commands[k]; Answers(j, v, c.frame, c.successStatus, Taken(j, k, v)) && DeviceDone(j, k + 1, Taken(j, k, v))
  {
    hide ImageCommands;
    CommandAt(j, k);
    if k == 1 { ReadLe32(BeginPayload(|j.jpeg|), 1, |j.jpeg|); }
    assert j.jpeg[..|j.jpeg|] == j.jpeg;
    var c := j.Plan().commands[k];
    assert Answers(j, v, c.frame, c.successStatus, Taken(j, k, v));
    DeviceProgress(j, k, v, c.successStatus, Taken(j, k, v));
  }

  /** r continues s, step by step. */
  ghost predicate Chain(j: Job, s: System, r: seq<System>)
    requires j.Valid()
  {
    |r| > 0 && Next(j, s, r[0]) && forall i :: 0 <= i < |r| - 1 ==> Next(j, r[i], r[i + 1])
  }

  lemma ChainJoins(j: Job, s: System, a: seq<System>, b: seq<System>)
    requires j.Valid() && Chain(j, s, a) && Chain(j, a[|a| - 1], b)
    ensures Chain(j, s, a + b)
  {
    hide Next;
    var c := a + b;
    forall i | 0 <= i < |c| - 1 ensures Next(j, c[i], c[i + 1]) {
      if i < |a| - 1 { assert Next(j, a[i], a[i + 1]); }
      else if i == |a| - 1 { assert c[i] == a[|a| - 1] && c[i + 1] == b[0]; }
      else { assert Next(j, b[i - |a|], b[i - |a| + 1]); }
    }
  }

  function Writing(s: System, part: seq<byte>): System {
    s.(sender := s.sender.(state := WritingOut, dispatched := true, token := s.sender.token + 1, lastNow := 0), inbox := [part])
  }

  lemma Issues(j: Job, s: System, k: nat, f: nat)
    requires j.Valid() && AtFragment(j, s, k, f)
    ensures Next(j, s, Writing(s, j.Plan().Parts(k)[f]))
  {
    hide ImageCommands, Fragments, Encode, Flatten, DeviceDone;
    assert IssueStep(j, s, Writing(s, j.Plan().Parts(k)[f]), 0);
  }

  /** What the device's parser makes of the next fragment. */
  lemma PartFed(j: Job, k: nat, f: nat)
    requires j.Valid() && k < |j.Plan().commands| && f < |j.Plan().Parts(k)|
    ensures var c, parts := j.Plan().commands[k], j.Plan().Parts(k); var held := Flatten(parts[..f]);
            Feed(held, parts[f]) == if f + 1 < |parts| then Fed(Flatten(parts[..f + 1]), FrameOk, None) else Fed([], FrameOk, Some(c.frame))
  {
    hide ImageCommands, Fragments, Feed;
    var c, parts := j.Plan().commands[k], j.Plan().Parts(k);
    var held := Flatten(parts[..f]);
    PartsOf(j, k);
    FlattenFront(parts, f);
    FlattenFront(parts, f + 1);
    assert c in j.Plan().commands;
    assert held + parts[f] == Flatten(parts[..f + 1]);
    FeedEncoded(c.frame, held, parts[f]);
  }

  lemma MiddleRound(j: Job, s: System, k: nat, f: nat) returns (r: seq<System>)
    requires j.Valid() && AtFragment(j, s, k, f) && f + 1 < |j.Plan().Parts(k)|
    ensures Chain(j, s, r) && AtFragment(j, r[|r| - 1], k, f + 1)
  {
    hide ImageCommands, Fragments, Encode, Flatten, DeviceDone, Feed;
    var part := j.Plan().Parts(k)[f];
    var a := Writing(s, part);
    Issues(j, s, k, f);
    PartFed(j, k, f);
    var b := a.(inbox := [], stream := Flatten(j.Plan().Parts(k)[..f + 1]));
    assert a.inbox[1..] == [];
    assert DeliverStep(j, a, b, 0);
    var c := b.(sender := b.sender.(fragment := f + 1, state := ReadyToWrite, startedAt := 0));
    assert WriteDoneStep(j, b, c, b.sender.token, true, 0);
    r := [a, b, c];
  }

  /** The last fragment completes the frame; the device does what it asks, answers, and the companion moves on. */
  lemma LastRound(j: Job, s: System, k: nat, f: nat) returns (r: seq<System>)
    requires j.Valid() && AtFragment(j, s, k, f) && f + 1 == |j.Plan().Parts(k)|
    ensures Chain(j, s, r)
    ensures var t := r[|r| - 1];
            DeviceDone(j, k + 1, t.view) &&
            if k + 1 == |j.Plan().commands| then t.sender.state.TransportComplete? else AtFragment(j, t, k + 1, 0)
  {
    hide ImageCommands, Fragments, Encode, Flatten, DeviceDone, Feed, Answers, Taken;
    var part, command := j.Plan().Parts(k)[f], j.Plan().commands[k];
    var a := Writing(s, part);
    Issues(j, s, k, f);
    PartFed(j, k, f);
    DeviceCan(j, k, s.view);
    var b := a.(inbox := [], stream := [], view := Taken(j, k, s.view), responses := [(command.frame.kind, command.successStatus)]);
    assert a.inbox[1..] == [];
    assert DeliverStep(j, a, b, command.successStatus);
    var c := b.(sender := b.sender.(state := WaitingResponse));
    assert WriteDoneStep(j, b, c, b.sender.token, true, 0);
    KindOf(j, k);
    var d := c.(sender := Accepted(j.Plan(), c.sender, command.successStatus, 0), responses := []);
    assert c.responses[1..] == [];
    assert NotifyStep(j, c, d, 0);
    if k + 1 < |j.Plan().commands| { NothingSent(j, k + 1); }
    r := [a, b, c, d];
  }

  lemma KindOf(j: Job, k: nat)
    requires j.Valid() && k < |j.Plan().commands|
    ensures j.Plan().commands[k].frame.kind != 0
  {
    PartsOf(j, k);
  }

  lemma NothingSent(j: Job, k: nat)
    requires j.Valid() && k < |j.Plan().commands|
    ensures |j.Plan().Parts(k)| > 0 && Flatten(j.Plan().Parts(k)[..0]) == []
  {
    PartsOf(j, k);
    assert j.Plan().Parts(k)[..0] == [];
  }

  lemma {:induction false} RestCompletes(j: Job, s: System, k: nat, f: nat) returns (r: seq<System>)
    requires j.Valid() && AtFragment(j, s, k, f)
    ensures Chain(j, s, r) && r[|r| - 1].sender.state.TransportComplete? && DeviceDone(j, |j.Plan().commands|, r[|r| - 1].view)
    decreases |j.Plan().commands| - k, |j.Plan().Parts(k)| - f
  {
    hide Next, ImageCommands, Fragments, Encode, Flatten, DeviceDone;
    if f + 1 < |j.Plan().Parts(k)| {
      var a := MiddleRound(j, s, k, f);
      var b := RestCompletes(j, a[|a| - 1], k, f + 1);
      ChainJoins(j, s, a, b);
      r := a + b;
    } else {
      r := LastRound(j, s, k, f);
      if k + 1 < |j.Plan().commands| {
        var b := RestCompletes(j, r[|r| - 1], k + 1, 0);
        ChainJoins(j, s, r, b);
        r := r + b;
      }
    }
  }

  /** From any start there is a run in which the companion reports the transport complete and the image is shown. */
  lemma DeliveryCompletes(j: Job, s: System) returns (run: seq<System>)
    requires j.Valid() && Start(s)
    ensures LegacyDelivery.Run(j, run) && run[0] == s && run[|run| - 1].sender.state.TransportComplete?
    ensures run[|run| - 1].view.Shown(j.target) == Some(j.jpeg)
  {
    hide Next, ImageCommands, Fragments, Encode, Flatten;
    NothingSent(j, 0);
    var r := RestCompletes(j, s, 0, 0);
    run := [s] + r;
    forall i | 0 <= i < |run| - 1 ensures Next(j, run[i], run[i + 1]) {
      if i > 0 { assert Next(j, r[i - 1], r[i - 1 + 1]); }
    }
  }
}
