/** The device state machine in front of the snapshot store. */
module WalletTransfer {
  import opened Bytes
  import opened WalletCore

  datatype TransferState = Idle | Ready | Receiving | CommittedState | Failed | Busy
  datatype Fault = NoFault | Auth | Protocol | Size | Offset | Incomplete | CrcFault | Storage | Owner | Timeout | Internal
  datatype Kind = NoKind | BeginKind | DataKind | CommitKind | AbortKind
  datatype Action = NoAction | BeginAction(expected: u32, crc: u32) | DataAction(offset: u32, data: seq<byte>) | CommitAction | AbortAction
  {
    function Kind(): Kind {
      match this
      case NoAction => NoKind
      case BeginAction(_, _) => BeginKind
      case DataAction(_, _) => DataKind
      case CommitAction => CommitKind
      case AbortAction => AbortKind
    }
  }
  datatype InputResult = Accept | Reject | Retry
  datatype Status = Status(state: TransferState, fault: Fault, received: u32, expected: u32)
  datatype Transfer = Transfer(status: Status, pending: Kind, pendingLength: nat)
  datatype Outcome = Outcome(transfer: Transfer, result: InputResult, action: Action)

  const MSG_BEGIN: byte := 1
  const MSG_DATA: byte := 2
  const MSG_COMMIT: byte := 3
  const MSG_ABORT: byte := 4
  const FRESH: Transfer := Transfer(Status(Idle, NoFault, 0, 0), NoKind, 0)

  predicate Open(t: Transfer) { t.status.state.Ready? || t.status.state.Receiving? }

  predicate Unfinished(t: Transfer) { Open(t) || t.status.state.Busy? || t.pending != NoKind }

  /** Room left as the firmware computes it: an unsigned 32-bit difference. */
  function Room(t: Transfer): u32 { (t.status.expected - t.status.received) % 0x1_0000_0000 }

  function Fail(t: Transfer, fault: Fault, abort: bool): Outcome {
    Outcome(Transfer(t.status.(state := Failed, fault := fault), NoKind, 0), Reject, if abort then AbortAction else NoAction)
  }

  function Input(t: Transfer, authorized: bool, m: seq<byte>): Outcome {
    if !authorized then Fail(t, Auth, Open(t))
    else if m == [] then Fail(t, Protocol, false)
    else if t.pending != NoKind || t.status.state.Busy? then Outcome(t, Retry, NoAction)
    else if m[0] == MSG_BEGIN then InputBegin(t, m)
    else if m[0] == MSG_DATA then InputData(t, m)
    else if m[0] == MSG_COMMIT then InputCommit(t, m)
    else if m[0] == MSG_ABORT then
      if |m| != 1 then Fail(t, Protocol, true) else Outcome(FRESH, Accept, AbortAction)
    else Fail(t, Protocol, Open(t))
  }

  function InputBegin(t: Transfer, m: seq<byte>): Outcome {
    if |m| != 9 then Fail(t, Protocol, false)
    else if !LengthAccepted(Read32(m, 1)) then Fail(t, Size, false)
    else if Open(t) then Fail(t, Protocol, true)
    else Outcome(t.(status := Status(Busy, NoFault, 0, Read32(m, 1)), pending := BeginKind), Accept,
                 BeginAction(Read32(m, 1), Read32(m, 5)))
  }

  function InputData(t: Transfer, m: seq<byte>): Outcome {
    if |m| <= 5 || !Open(t) then Fail(t, Protocol, Open(t))
    else if Read32(m, 1) != t.status.received then Fail(t, Offset, true)
    else if |m| - 5 > Room(t) then Fail(t, Size, true)
    else Outcome(t.(pending := DataKind, pendingLength := |m| - 5), Accept, DataAction(Read32(m, 1), m[5..]))
  }

  function InputCommit(t: Transfer, m: seq<byte>): Outcome {
    if |m| != 1 then Fail(t, Protocol, true)
    else if !Open(t) then Fail(t, Protocol, false)
    else if t.status.received != t.status.expected then Fail(t, Incomplete, true)
    else Outcome(t.(status := t.status.(state := Busy), pending := CommitKind), Accept, CommitAction)
  }

  function Complete(t: Transfer, action: Action, success: bool, fault: Fault): Transfer {
    if action.Kind() != t.pending then t
    else if !success then
      Transfer(t.status.(state := Failed, fault := if fault.NoFault? then Storage else fault), NoKind, 0)
    else
      var s := t.status.(fault := NoFault);
      match action
      case NoAction => t.(status := s, pending := NoKind)
      case BeginAction(_, _) => t.(status := s.(state := Ready), pending := NoKind)
      case DataAction(_, _) =>
        Transfer(s.(state := Receiving, received := (s.received + t.pendingLength) % 0x1_0000_0000), NoKind, 0)
      case CommitAction => t.(status := s.(state := CommittedState), pending := NoKind)
      case AbortAction => FRESH
  }

  function Disconnected(t: Transfer): Transfer { if Unfinished(t) then FRESH else t }

  function TimedOut(t: Transfer): Transfer {
    if Unfinished(t) then Transfer(t.status.(state := Failed, fault := Timeout), NoKind, 0) else t
  }

  /** The machine's own state, updated field by field. */
  class Machine {
    var state: TransferState
    var fault: Fault
    var received: u32
    var expected: u32
    var pending: Kind
    var pendingLength: nat

    ghost function State(): Transfer
      reads this
    {
      Transfer(Status(state, fault, received, expected), pending, pendingLength)
    }

    constructor ()
      ensures State() == FRESH
    {
      state, fault, received, expected, pending, pendingLength := Idle, NoFault, 0, 0, NoKind, 0;
    }

    method Reset()
      modifies this
      ensures State() == FRESH
    {
      state, fault, received, expected, pending, pendingLength := Idle, NoFault, 0, 0, NoKind, 0;
    }

    method FailWith(error: Fault, abort: bool) returns (result: InputResult, action: Action)
      modifies this
      ensures Outcome(State(), result, action) == Fail(old(State()), error, abort)
    {
      state, fault, pending, pendingLength := Failed, error, NoKind, 0;
      result, action := Reject, if abort then AbortAction else NoAction;
    }

    method OnInput(authorized: bool, m: seq<byte>) returns (result: InputResult, action: Action)
      modifies this
      ensures Outcome(State(), result, action) == Input(old(State()), authorized, m)
    {
      var open := state.Ready? || state.Receiving?;
      if !authorized { result, action := FailWith(Auth, open); return; }
      if |m| == 0 { result, action := FailWith(Protocol, false); return; }
      if pending != NoKind || state.Busy? { return Retry, NoAction; }
      if m[0] == MSG_BEGIN {
        if |m| != 9 { result, action := FailWith(Protocol, false); return; }
        var length := Read32(m, 1);
        if !LengthAccepted(length) { result, action := FailWith(Size, false); return; }
        if open { result, action := FailWith(Protocol, true); return; }
        state, fault, received, expected, pending := Busy, NoFault, 0, length, BeginKind;
        return Accept, BeginAction(length, Read32(m, 5));
      }
      if m[0] == MSG_DATA { result, action := OnData(m); return; }
      if m[0] == MSG_COMMIT {
        if |m| != 1 { result, action := FailWith(Protocol, true); return; }
        if !open { result, action := FailWith(Protocol, false); return; }
        if received != expected { result, action := FailWith(Incomplete, true); return; }
        state, pending := Busy, CommitKind;
        return Accept, CommitAction;
      }
      if m[0] == MSG_ABORT {
        if |m| != 1 { result, action := FailWith(Protocol, true); return; }
        Reset();
        return Accept, AbortAction;
      }
      result, action := FailWith(Protocol, open);
    }

    method OnData(m: seq<byte>) returns (result: InputResult, action: Action)
      modifies this
      ensures Outcome(State(), result, action) == InputData(old(State()), m)
    {
      var open := state.Ready? || state.Receiving?;
      if |m| <= 5 || !open { result, action := FailWith(Protocol, open); return; }
      var offset := Read32(m, 1);
      if offset != received { result, action := FailWith(Offset, true); return; }
      if |m| - 5 > (expected - received) % 0x1_0000_0000 { result, action := FailWith(Size, true); return; }
      pending, pendingLength := DataKind, |m| - 5;
      result, action := Accept, DataAction(offset, m[5..]);
    }

    method OnComplete(action: Action, success: bool, error: Fault)
      modifies this
      ensures State() == Complete(old(State()), action, success, error)
    {
      if action.Kind() != pending { return; }
      pending := NoKind;
      if !success {
        pendingLength, state, fault := 0, Failed, if error.NoFault? then Storage else error;
        return;
      }
      fault := NoFault;
      match action {
        case NoAction =>
        case BeginAction(_, _) => state := Ready;
        case DataAction(_, _) =>
          received, pendingLength, state := (received + pendingLength) % 0x1_0000_0000, 0, Receiving;
        case CommitAction => state := CommittedState;
        case AbortAction => Reset();
      }
    }

    method OnDisconnect() returns (unfinished: bool)
      modifies this
      ensures unfinished == Unfinished(old(State())) && State() == Disconnected(old(State()))
    {
      unfinished := state.Ready? || state.Receiving? || state.Busy? || pending != NoKind;
      if unfinished { Reset(); }
    }

    method OnTimeout() returns (unfinished: bool)
      modifies this
      ensures unfinished == Unfinished(old(State())) && State() == TimedOut(old(State()))
    {
      unfinished := state.Ready? || state.Receiving? || state.Busy? || pending != NoKind;
      if unfinished { pending, pendingLength, state, fault := NoKind, 0, Failed, Timeout; }
    }
  }

  function StateCode(s: TransferState): byte {
    match s
    case Idle => 0 case Ready => 1 case Receiving => 2 case CommittedState => 3 case Failed => 4 case Busy => 5
  }

  function FaultCode(f: Fault): byte {
    match f
    case NoFault => 0 case Auth => 1 case Protocol => 2 case Size => 3 case Offset => 4 case Incomplete => 5
    case CrcFault => 6 case Storage => 7 case Owner => 8 case Timeout => 9 case Internal => 10
  }

  /** The twelve status octets a status read returns. */
  function EncodeStatus(s: Status): (b: seq<byte>)
    ensures |b| == 12
  {
    [StateCode(s.state), FaultCode(s.fault), 0, 0] + Le32(s.received) + Le32(s.expected)
  }

  // ----- what the outcomes say on the wire

  /** A timeout shows as state 4, error 9, with the counters as they were; a finished transfer is left alone. */
  lemma TimeoutReported(t: Transfer)
    ensures var b := EncodeStatus(TimedOut(t).status);
            if t.status.state.Ready? || t.status.state.Receiving? || t.status.state.Busy? || t.pending != NoKind then
              b[..4] == [4, 9, 0, 0] && Read32(b, 4) == t.status.received && Read32(b, 8) == t.status.expected &&
              TimedOut(t).pending.NoKind?
            else TimedOut(t) == t
  {
    var b := EncodeStatus(TimedOut(t).status);
    ReadLe32(b, 4, t.status.received);
    ReadLe32(b, 8, t.status.expected);
  }

  /** A lost connection leaves nothing of an unfinished transfer: the status is all zero. */
  lemma DisconnectForgets(t: Transfer)
    ensures if t.status.state.Ready? || t.status.state.Receiving? || t.status.state.Busy? || t.pending != NoKind then
              EncodeStatus(Disconnected(t).status) == [0, 0, 0, 0, 0, 0, 0, 0, 0, 0, 0, 0] && Disconnected(t).pending.NoKind?
            else Disconnected(t) == t
  {
  }

  /** Every refusal shows as state 4 with its own error octet, asks for the staging to be dropped exactly if one was open or
      could be, and leaves nothing pending. */
  lemma RefusalsReported(t: Transfer, m: seq<byte>)
    requires t.pending.NoKind? && !t.status.state.Busy? && t.status.received <= t.status.expected
    ensures var o := Input(t, true, m);
            var open := t.status.state.Ready? || t.status.state.Receiving?;
            var error := EncodeStatus(o.transfer.status)[1];
            (m == [] ==> o.result.Reject? && error == 2) &&
            (|m| == 9 && m[0] == 1 ==>
              if !(32 + 27716 <= Read32(m, 1) <= 32 + 52 * 27716) then o.result.Reject? && error == 3
              else if open then o.result.Reject? && error == 2 && o.action.AbortAction?
              else o.result.Accept? && o.action == BeginAction(Read32(m, 1), Read32(m, 5))) &&
            (|m| > 5 && m[0] == 2 ==>
              if !open then o.result.Reject? && error == 2
              else if Read32(m, 1) != t.status.received then o.result.Reject? && error == 4 && o.action.AbortAction?
              else if |m| - 5 > t.status.expected - t.status.received then o.result.Reject? && error == 3 && o.action.AbortAction?
              else o.result.Accept? && o.action == DataAction(Read32(m, 1), m[5..])) &&
            (m == [3] ==>
              if !open then o.result.Reject? && error == 2
              else if t.status.received != t.status.expected then o.result.Reject? && error == 5 && o.action.AbortAction?
              else o.result.Accept? && o.action.CommitAction?) &&
            (m == [4] ==> o.result.Accept? && o.action.AbortAction? && o.transfer == FRESH) &&
            (m != [] && !(1 <= m[0] <= 4) ==> o.result.Reject? && error == 2 && (o.action.AbortAction? <==> open)) &&
            (o.result.Reject? ==> EncodeStatus(o.transfer.status)[0] == 4 && o.transfer.pending.NoKind?)
  {
  }

  /** An unauthorized message never reaches the store, except to drop a staging; a busy machine keeps its message for later. */
  lemma OutsidersRefused(t: Transfer, m: seq<byte>)
    ensures var o := Input(t, false, m);
            o.result.Reject? && EncodeStatus(o.transfer.status)[..2] == [4, 1] &&
            o.action == if t.status.state.Ready? || t.status.state.Receiving? then AbortAction else NoAction
    ensures m != [] && (t.pending != NoKind || t.status.state.Busy?) ==> Input(t, true, m) == Outcome(t, Retry, NoAction)
  {
  }
}
