/** The companion's stop-and-wait coordinator: one write at a time, one response per command, no retries. */
module StockTransferSession {
  import opened Bytes
  import opened StockProtocol

  datatype SenderState = ReadyToWrite | WritingOut | WaitingResponse | TransportComplete | Rejected | Unknown | Cancelled
  datatype Plan = Plan(commands: seq<Command>, mtu: nat, timeoutMs: nat) {
    predicate Valid() {
      commands != [] && 23 <= mtu <= 517 && timeoutMs > 0 && forall c | c in commands :: |c.frame.payload| <= PAYLOAD_MAX
    }

    /** The fragments of command i; past the last command nothing is written any more. */
    function Parts(i: nat): seq<seq<byte>>
      requires Valid()
    {
      if i < |commands| then assert commands[i] in commands; Fragments(Encode(commands[i].frame), mtu - 3) else []
    }
  }

  datatype Sender = Sender(state: SenderState, command: nat, fragment: nat, token: nat, startedAt: int, lastNow: int,
                           dispatched: bool, pending: Option<byte>, rejected: Option<(byte, byte)>) {
    predicate Terminal() { state.TransportComplete? || state.Rejected? || state.Unknown? || state.Cancelled? }
  }

  const NEW_SENDER: Sender := Sender(ReadyToWrite, 0, 0, 0, 0, -1, false, None, None)

  function CheckedTimeout(p: Plan, s: Sender, now: int): Sender {
    var t := s.(lastNow := now);
    if !t.Terminal() && t.dispatched && now - t.startedAt >= p.timeoutMs then t.(state := Unknown, pending := None) else t
  }

  /** A sender that is not finished addresses an existing fragment of an existing command. */
  predicate InRange(p: Plan, s: Sender)
    requires p.Valid()
  {
    s.Terminal() || (s.command < |p.commands| && s.fragment < |p.Parts(s.command)|)
  }

  function NextWrite(p: Plan, s: Sender, now: int): (Sender, Option<(nat, seq<byte>)>)
    requires p.Valid() && InRange(p, s)
  {
    var t := CheckedTimeout(p, s, now);
    if !t.state.ReadyToWrite? then (t, None)
    else (t.(state := WritingOut, startedAt := now, dispatched := true, token := t.token + 1),
          Some((t.token + 1, p.Parts(t.command)[t.fragment])))
  }

  function Accepted(p: Plan, s: Sender, status: byte, now: int): Sender
    requires p.Valid() && s.command < |p.commands|
  {
    var current := p.commands[s.command];
    if status != current.successStatus then s.(rejected := Some((current.frame.kind, status)), state := Rejected)
    else
      s.(command := s.command + 1, fragment := 0, pending := None, startedAt := now,
         state := if s.command + 1 == |p.commands| then TransportComplete else ReadyToWrite)
  }

  function WriteCompleted(p: Plan, s: Sender, token: nat, success: bool, now: int): Sender
    requires p.Valid() && InRange(p, s)
  {
    var t := CheckedTimeout(p, s, now);
    if !t.state.WritingOut? || token != t.token then t
    else if !success then t.(state := Unknown, pending := None)
    else if t.fragment + 1 < |p.Parts(t.command)| then t.(fragment := t.fragment + 1, state := ReadyToWrite, startedAt := now)
    else
      var w := t.(state := WaitingResponse);
      if t.pending.Some? then Accepted(p, w.(pending := None), t.pending.value, now) else w
  }

  /** Parser errors that may arrive while a fragmented frame is still being written. */
  predicate GlobalError(kind: byte, status: byte) { kind == 0 && (status == 0x10 || status == 0x11 || status == 0x15) }

  function Notified(p: Plan, s: Sender, response: seq<byte>, now: int): Sender
    requires p.Valid() && InRange(p, s)
  {
    var t := CheckedTimeout(p, s, now);
    if t.Terminal() || |response| != 2 then t
    else if GlobalError(response[0], response[1]) && t.dispatched then
      t.(rejected := Some((response[0], response[1])), state := Rejected, pending := None)
    else if response[0] != p.commands[t.command].frame.kind then t
    else if t.state.WaitingResponse? then Accepted(p, t, response[1], now)
    else if t.state.WritingOut? && t.fragment == |p.Parts(t.command)| - 1 && t.pending.None? then t.(pending := Some(response[1]))
    else t
  }

  function CancelledBy(s: Sender): Sender {
    if s.Terminal() then s else s.(state := if s.dispatched then Unknown else Cancelled, pending := None)
  }

  /** The coordinator's own fields. Callers pass a monotone clock, as the coordinator demands. */
  class Session {
    const plan: Plan
    var state: SenderState
    var fragments: seq<seq<byte>>
    var commandIndex: nat
    var fragmentIndex: nat
    var token: nat
    var startedAt: int
    var lastNow: int
    var dispatched: bool
    var pendingStatus: Option<byte>
    var rejected: Option<(byte, byte)>

    ghost function State(): Sender
      reads this
    {
      Sender(state, commandIndex, fragmentIndex, token, startedAt, lastNow, dispatched, pendingStatus, rejected)
    }

    ghost predicate Valid()
      reads this
    {
      plan.Valid() && InRange(plan, State()) && (!State().Terminal() ==> fragments == plan.Parts(commandIndex))
    }

    constructor (plan: Plan)
      requires plan.Valid()
      ensures this.plan == plan && Valid() && State() == NEW_SENDER
    {
      this.plan := plan;
      state, commandIndex, fragmentIndex, token, startedAt, lastNow := ReadyToWrite, 0, 0, 0, 0, -1;
      dispatched, pendingStatus, rejected := false, None, None;
      fragments := plan.Parts(0);
    }

    method CheckTimeout(now: int)
      requires Valid() && now >= 0 && now >= lastNow
      modifies this
      ensures Valid() && State() == CheckedTimeout(plan, old(State()), now)
    {
      lastNow := now;
      if !(state.TransportComplete? || state.Rejected? || state.Unknown? || state.Cancelled?) && dispatched &&
         now - startedAt >= plan.timeoutMs {
        state, pendingStatus := Unknown, None;
      }
    }

    method Next(now: int) returns (w: Option<(nat, seq<byte>)>)
      requires Valid() && now >= 0 && now >= lastNow
      modifies this
      ensures Valid() && (State(), w) == NextWrite(plan, old(State()), now)
    {
      CheckTimeout(now);
      if !state.ReadyToWrite? { return None; }
      state, startedAt, dispatched, token := WritingOut, now, true, token + 1;
      w := Some((token, fragments[fragmentIndex]));
    }

    method Accept(status: byte, now: int)
      requires Valid() && state.WaitingResponse?
      modifies this
      ensures Valid() && State() == Accepted(plan, old(State()), status, now)
    {
      var current := plan.commands[commandIndex];
      if status != current.successStatus {
        rejected, state := Some((current.frame.kind, status)), Rejected;
        return;
      }
      commandIndex, fragmentIndex, pendingStatus, startedAt := commandIndex + 1, 0, None, now;
      if commandIndex == |plan.commands| { state := TransportComplete; return; }
      fragments, state := plan.Parts(commandIndex), ReadyToWrite;
    }

    method OnWriteComplete(writeToken: nat, success: bool, now: int)
      requires Valid() && now >= 0 && now >= lastNow
      modifies this
      ensures Valid() && State() == WriteCompleted(plan, old(State()), writeToken, success, now)
    {
      CheckTimeout(now);
      if !state.WritingOut? || writeToken != token { return; }
      if !success { state, pendingStatus := Unknown, None; return; }
      if fragmentIndex + 1 < |fragments| {
        fragmentIndex, state, startedAt := fragmentIndex + 1, ReadyToWrite, now;
        return;
      }
      state := WaitingResponse;
      if pendingStatus.Some? {
        var status := pendingStatus.value;
        pendingStatus := None;
        Accept(status, now);
      }
    }

    method OnNotification(response: seq<byte>, now: int)
      requires Valid() && now >= 0 && now >= lastNow
      modifies this
      ensures Valid() && State() == Notified(plan, old(State()), response, now)
    {
      CheckTimeout(now);
      if state.TransportComplete? || state.Rejected? || state.Unknown? || state.Cancelled? || |response| != 2 { return; }
      if GlobalError(response[0], response[1]) && dispatched {
        rejected, state, pendingStatus := Some((response[0], response[1])), Rejected, None;
        return;
      }
      if response[0] != plan.commands[commandIndex].frame.kind { return; }
      if state.WaitingResponse? {
        Accept(response[1], now);
      } else if state.WritingOut? && fragmentIndex == |fragments| - 1 && pendingStatus.None? {
        pendingStatus := Some(response[1]);
      }
    }

    method Cancel()
      requires Valid()
      modifies this
      ensures Valid() && State() == CancelledBy(old(State()))
    {
      if !(state.TransportComplete? || state.Rejected? || state.Unknown? || state.Cancelled?) {
        state, pendingStatus := if dispatched then Unknown else Cancelled, None;
      }
    }
  }

  lemma StepsInRange(p: Plan, s: Sender, token: nat, success: bool, response: seq<byte>, now: int)
    requires p.Valid() && InRange(p, s)
    ensures InRange(p, NextWrite(p, s, now).0) && InRange(p, WriteCompleted(p, s, token, success, now))
    ensures InRange(p, Notified(p, s, response, now)) && InRange(p, CancelledBy(s)) && InRange(p, CheckedTimeout(p, s, now))
  {
    hide Fragments, Encode;
  }

  // ----- the deadline

  /** A command has been under way for the whole timeout. */
  predicate Overdue(p: Plan, s: Sender, now: int) { !s.Terminal() && s.dispatched && now - s.startedAt >= p.timeoutMs }

  /** Whatever an event carries, an overdue sender gives up at it; before that it gives up only at a failed completion of the
      write it is waiting for. */
  lemma GivesUpOnTime(p: Plan, s: Sender, token: nat, success: bool, response: seq<byte>, now: int)
    requires p.Valid() && InRange(p, s) && !s.Terminal()
    ensures var (next, w) := NextWrite(p, s, now); var done, told := WriteCompleted(p, s, token, success, now), Notified(p, s, response, now);
            if Overdue(p, s, now) then next.state.Unknown? && w.None? && done.state.Unknown? && told.state.Unknown?
            else !next.state.Unknown? && !told.state.Unknown? && (done.state.Unknown? <==> s.state.WritingOut? && token == s.token && !success)
  {
    hide Fragments, Encode;
  }

  /** A finished sender stays as it finished. */
  lemma StaysFinished(p: Plan, s: Sender, token: nat, success: bool, response: seq<byte>, now: int)
    requires p.Valid() && s.Terminal()
    ensures NextWrite(p, s, now) == (s.(lastNow := now), None) && WriteCompleted(p, s, token, success, now) == s.(lastNow := now)
    ensures Notified(p, s, response, now) == s.(lastNow := now) && CancelledBy(s) == s
  {
  }

  datatype Event =
    | Ask(now: int)
    | Completion(token: nat, success: bool, now: int)
    | Notification(response: seq<byte>, now: int)
    | Cancellation

  function Step(p: Plan, s: Sender, e: Event): (t: Sender)
    requires p.Valid() && InRange(p, s)
    ensures InRange(p, t)
  {
    hide Fragments, Encode;
    match e
    case Ask(now) => NextWrite(p, s, now).0
    case Completion(token, success, now) => WriteCompleted(p, s, token, success, now)
    case Notification(response, now) => Notified(p, s, response, now)
    case Cancellation => CancelledBy(s)
  }

  function After(p: Plan, events: seq<Event>): (s: Sender)
    requires p.Valid()
    ensures InRange(p, s)
  {
    if events == [] then NEW_SENDER else Step(p, After(p, events[..|events| - 1]), events[|events| - 1])
  }

  /** A write was issued, a fragment completed or a response accepted. */
  predicate Moved(s: Sender, t: Sender) { t.token != s.token || t.fragment != s.fragment || t.command != s.command }

  /** When that last happened. */
  function LastMove(p: Plan, events: seq<Event>): int
    requires p.Valid()
  {
    if events == [] then 0
    else
      var front, e := events[..|events| - 1], events[|events| - 1];
      if !e.Cancellation? && Moved(After(p, front), After(p, events)) then e.now else LastMove(p, front)
  }

  lemma {:induction false} StartedAtLastMove(p: Plan, events: seq<Event>)
    requires p.Valid()
    ensures After(p, events).startedAt == LastMove(p, events)
  {
    hide Fragments, Encode;
    if events != [] {
      var front, e := events[..|events| - 1], events[|events| - 1];
      StartedAtLastMove(p, front);
      StepStarts(p, After(p, front), e);
    }
  }

  lemma StepStarts(p: Plan, s: Sender, e: Event)
    requires p.Valid() && InRange(p, s)
    ensures var t := Step(p, s, e); t.startedAt == if !e.Cancellation? && Moved(s, t) then e.now else s.startedAt
  {
    hide Fragments, Encode;
  }

  /** Event k makes the sender give up: it comes a whole timeout after the last move, or reports the awaited write as failed, or
      cancels a command under way. */
  predicate GaveUpAt(p: Plan, events: seq<Event>, k: nat)
    requires p.Valid() && k < |events|
  {
    var s, e := After(p, events[..k]), events[k];
    !s.Terminal() &&
    match e
    case Cancellation => s.dispatched
    case Ask(now) => s.dispatched && now - LastMove(p, events[..k]) >= p.timeoutMs
    case Notification(_, now) => s.dispatched && now - LastMove(p, events[..k]) >= p.timeoutMs
    case Completion(token, success, now) =>
      (s.dispatched && now - LastMove(p, events[..k]) >= p.timeoutMs) || (s.state.WritingOut? && token == s.token && !success)
  }

  /** Over any history: the outcome of a transfer is unknown if and only if some event made the sender give up. */
  lemma {:induction false} UnknownExactly(p: Plan, events: seq<Event>)
    requires p.Valid()
    ensures After(p, events).state.Unknown? <==> exists k: nat :: k < |events| && GaveUpAt(p, events, k)
  {
    hide Fragments, Encode, GaveUpAt, Step;
    if events != [] {
      var n := |events| - 1;
      var front := events[..n];
      UnknownExactly(p, front);
      StartedAtLastMove(p, front);
      LastStep(p, events);
      if k: nat :| k < n && GaveUpAt(p, front, k) { SameGiveUp(p, events, k); }
      if k: nat :| k < |events| && GaveUpAt(p, events, k) { if k < n { SameGiveUp(p, events, k); } }
    }
  }

  lemma SameGiveUp(p: Plan, events: seq<Event>, k: nat)
    requires p.Valid() && k < |events| - 1
    ensures GaveUpAt(p, events, k) <==> GaveUpAt(p, events[..|events| - 1], k)
  {
    hide After, LastMove;
    assert events[..|events| - 1][..k] == events[..k];
  }

  lemma LastStep(p: Plan, events: seq<Event>)
    requires p.Valid() && events != []
    requires After(p, events[..|events| - 1]).startedAt == LastMove(p, events[..|events| - 1])
    ensures var s := After(p, events[..|events| - 1]);
            After(p, events).state.Unknown? <==> s.state.Unknown? || GaveUpAt(p, events, |events| - 1)
  {
    hide Fragments, Encode, LastMove;
    var s, e := After(p, events[..|events| - 1]), events[|events| - 1];
    assert After(p, events) == Step(p, s, e);
    match e
    case Ask(now) => if s.Terminal() { StaysFinished(p, s, 0, true, [], now); } else { GivesUpOnTime(p, s, 0, true, [], now); }
    case Completion(token, success, now) =>
      if s.Terminal() { StaysFinished(p, s, token, success, [], now); } else { GivesUpOnTime(p, s, token, success, [], now); }
    case Notification(response, now) =>
      if s.Terminal() { StaysFinished(p, s, 0, true, response, now); } else { GivesUpOnTime(p, s, 0, true, response, now); }
    case Cancellation =>
  }
}
