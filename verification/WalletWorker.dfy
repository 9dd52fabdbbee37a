/** The worker's handling of one received message: the transfer machine decides, the store executes, the machine completes. */
module WalletWorker {
  import opened Bytes
  import opened WalletTransfer
  import opened WalletStore
  import opened WalletBanks
  import opened WalletSync
  import WalletCore

  /** The store as the synchronisation model sees it. */
  ghost function View(store: Store): StoreView
    reads store
  {
    StoreView(if store.staging then Opened(store.expectedLength, store.expectedCrc, store.staged) else Closed,
              if store.active.Selected? then store.active.snapshot.package else [])
  }

  /** Between messages: no staging with a failed write is left open. */
  ghost predicate Settled(store: Store)
    reads store, store.backend
  {
    store.Valid() && store.initialized && (store.staging ==> store.clean)
  }

  function StoreFault(r: StoreResult): Fault {
    match r
    case BadCrc => CrcFault
    case BadFormat => Protocol
    case InvalidArg => Protocol
    case NoSpace => Protocol
    case _ => Storage
  }

  /** The store's answer to a call: what was staged, the two guard checks, and whether the spare bank could not be read or an
      erase, a write or a save failed. */
  function ResultOf(action: Action, v: StoreView, first: bool, second: bool, unread: bool, failed: bool): StoreResult {
    match action
    case DataAction(offset, data) =>
      if !v.staging.Opened? then InvalidState
      else if offset != |v.staging.bytes| || |data| > v.staging.length - |v.staging.bytes| then InvalidArg
      else if failed then IoError else Ok
    case CommitAction =>
      var complete := v.staging.Opened? && |v.staging.bytes| == v.staging.length;
      CommitResult(complete, unread, if complete then WalletCore.Judge(v.staging.bytes, v.staging.crc) else WalletCore.FormatError, first, second,
                   failed)
    case _ => if failed then IoError else Ok
  }

  method CallBegin(store: Store, length: nat, crc: u32) returns (r: StoreResult)
    requires Settled(store) && WalletCore.LengthAccepted(length)
    modifies store, store.backend
    ensures Settled(store) && StoreCall(BeginAction(length, crc), r == Ok, old(View(store)), View(store))
    ensures r == ResultOf(BeginAction(length, crc), old(View(store)), true, true, false, store.backend.faults > old(store.backend.faults))
  {
    hide ActiveOk, StagingOk, StandingAt;
    r := store.Begin(length, crc);
  }

  method CallWrite(store: Store, offset: u32, data: seq<byte>) returns (r: StoreResult)
    requires Settled(store) && data != []
    modifies store, store.backend
    ensures store.Valid() && store.initialized && (store.staging && !store.clean ==> r != Ok)
    ensures StoreCall(DataAction(offset, data), r == Ok, old(View(store)), View(store))
    ensures r == ResultOf(DataAction(offset, data), old(View(store)), true, true, false, store.backend.faults > old(store.backend.faults))
  {
    hide ActiveOk, StandingAt, StagingOk;
    if store.staging { StagedLength(store); }
    r := store.Write(offset, data);
  }

  lemma StagedLength(store: Store)
    requires store.Valid() && store.staging && store.clean
    ensures |store.staged| == store.written
  {
  }

  method CallCommit(store: Store, first: bool, second: bool) returns (r: StoreResult)
    requires Settled(store)
    modifies store, store.backend
    ensures Settled(store) && StoreCall(CommitAction, r == Ok, old(View(store)), View(store))
    ensures r == ResultOf(CommitAction, old(View(store)), first, second,
                          store.backend.Unread(old(Spare(store.active))) > old(store.backend.Unread(Spare(store.active))),
                          store.backend.faults > old(store.backend.faults))
  {
    hide ActiveOk, StandingAt, WalletCore.Judge, StagingOk;
    if store.staging { StagedLength(store); }
    if store.staging && store.written == store.expectedLength { store.CandidateIsStaged(); }
    r := store.CommitGuarded(first, second);
  }

  /** The call an action stands for, with the store's own answer. */
  method CallStore(store: Store, action: Action, first: bool, second: bool) returns (r: StoreResult)
    requires Settled(store) && !action.NoAction? && !action.AbortAction?
    requires (action.BeginAction? ==> WalletCore.LengthAccepted(action.expected)) && (action.DataAction? ==> action.data != [])
    modifies store, store.backend
    ensures store.Valid() && store.initialized && (store.staging && !store.clean ==> r != Ok)
    ensures StoreCall(action, r == Ok, old(View(store)), View(store))
    ensures r == ResultOf(action, old(View(store)), first, second,
                          store.backend.Unread(old(Spare(store.active))) > old(store.backend.Unread(Spare(store.active))),
                          store.backend.faults > old(store.backend.faults))
  {
    hide ActiveOk, StandingAt, StagingOk, StoreCall, CommitResult;
    match action {
      case BeginAction(length, crc) => r := CallBegin(store, length, crc);
      case DataAction(offset, data) => r := CallWrite(store, offset, data);
      case CommitAction => r := CallCommit(store, first, second);
    }
  }

  /** What handling one message may do to the machine (t to u) and the store (v to w, with `called` in between). */
  predicate Handled(t: Transfer, v: StoreView, m: seq<byte>, before: bool, after: bool, ok: bool, fault: Fault, called: StoreView,
                    u: Transfer, w: StoreView) {
    if !before then u == t && w == v
    else
      var o := Input(t, true, m);
      if o.result.Retry? || o.action.NoAction? then u == o.transfer && w == v
      else if o.action.AbortAction? then u == o.transfer && w == v.(staging := Closed)
      else
        var lasting := after || o.action.CommitAction?;
        StoreCall(o.action, ok, v, called) && u == Complete(o.transfer, o.action, ok && lasting, fault) &&
        w == if ok && lasting then called else called.(staging := Closed)
  }

  /** One step or three: the message is taken; the store is called, the session may end meanwhile, and the machine completes. */
  ghost predicate InSteps(s: System, t: System, ok: bool, fault: Fault, called: StoreView) {
    exists taken: System ::
      TakeStep(s, taken) &&
      if taken.work.Resting? then t == taken
      else
        var stored := taken.(work := Executed(taken.work.action, taken.work.own, ok), staging := called.staging, active := called.active);
        StoreStep(taken, stored, ok) && exists ended: System :: (ended == stored || CloseStep(stored, ended)) && CompleteStep(ended, t, fault)
  }

  /** Handling a message is the take, store and completion steps of the synchronisation model, in that order. */
  lemma HandlingIsSteps(s: System, m: seq<byte>, before: bool, after: bool, ok: bool, fault: Fault, called: StoreView, u: Transfer, w: StoreView)
    requires s.work.Resting? && s.queue != [] && s.queue[0] == m && s.live == before && (before || !after)
    requires Handled(s.transfer, StoreView(s.staging, s.active), m, before, after, ok, fault, called, u, w)
    ensures exists t: System ::
              InSteps(s, t, ok, fault, called) && t.transfer == u && StoreView(t.staging, t.active) == w && t.queue == s.queue[1..] &&
              t.work.Resting?
  {
    hide Input, Complete, StoreCall, InSteps;
    var rest := s.(queue := s.queue[1..]);
    if !before {
      TakenOnly(s, rest, ok, fault, called);
    } else {
      var o := Input(s.transfer, true, m);
      var u := rest.(transfer := o.transfer, began := s.began || o.action.BeginAction?);
      if o.result.Retry? || o.action.NoAction? {
        TakenOnly(s, u, ok, fault, called);
      } else if o.action.AbortAction? {
        TakenOnly(s, u.(staging := Closed), ok, fault, called);
      } else {
        StoredSteps(s, u, o.action, after, ok, fault, called);
      }
    }
  }

  lemma TakenOnly(s: System, t: System, ok: bool, fault: Fault, called: StoreView)
    requires TakeStep(s, t) && t.work.Resting?
    ensures InSteps(s, t, ok, fault, called)
  {
    hide TakeStep;
  }

  lemma StoredSteps(s: System, u: System, action: Action, after: bool, ok: bool, fault: Fault, called: StoreView)
    requires TakeStep(s, u.(work := Executing(action, true))) && s.live && u.live && u.work.Resting?
    requires StoreCall(action, ok, StoreView(u.staging, u.active), called)
    ensures var lasting := after || action.CommitAction?;
            var t := u.(live := after, transfer := Complete(u.transfer, action, ok && lasting, fault),
                        staging := if !ok || !lasting then Closed else called.staging, active := called.active);
            InSteps(s, t, ok, fault, called)
  {
    hide Input, Complete, StoreCall, TakeStep;
    var taken := u.(work := Executing(action, true));
    var stored := taken.(work := Executed(action, true, ok), staging := called.staging, active := called.active);
    var ended := stored.(live := after);
    var lasting := after || action.CommitAction?;
    var t := u.(live := after, transfer := Complete(u.transfer, action, ok && lasting, fault),
                staging := if !ok || !lasting then Closed else called.staging, active := called.active);
    assert StoreStep(taken, stored, ok);
    assert ended == stored || CloseStep(stored, ended);
    assert CompleteStep(ended, t, fault);
  }

  /** Whether handling a message comes to a store call other than an abort. */
  predicate Calls(t: Transfer, m: seq<byte>, before: bool) {
    before && var o := Input(t, true, m); !o.result.Retry? && !o.action.NoAction? && !o.action.AbortAction?
  }

  /** One message of a session. `before`, `first`, `second` and `after` are the answers of the session check when the
      message is taken, at the two commit guards and after the store call. */
  method ExecuteTransfer(machine: Machine, store: Store, m: seq<byte>, before: bool, first: bool, second: bool, after: bool)
    returns (ok: bool, fault: Fault, ghost called: StoreView)
    requires Settled(store)
    modifies machine, store, store.backend
    ensures Settled(store)
    ensures Handled(old(machine.State()), old(View(store)), m, before, after, ok, fault, called, machine.State(), View(store))
    ensures Calls(old(machine.State()), m, before) ==>
              var r := ResultOf(Input(old(machine.State()), true, m).action, old(View(store)), first, second,
                                store.backend.Unread(old(Spare(store.active))) > old(store.backend.Unread(Spare(store.active))),
                                store.backend.faults > old(store.backend.faults));
              (ok <==> r == Ok) && fault == if ok then Auth else StoreFault(r)
    ensures !Calls(old(machine.State()), m, before) ==> !ok && store.backend.State() == old(store.backend.State())
  {
    hide ActiveOk, StandingAt, StagingOk, StoreCall, ResultOf, StoreFault, Complete;
    ok, fault, called := false, NoFault, View(store);
    if !before { return; }
    ghost var t := machine.State();
    var input, action := machine.OnInput(true, m);
    if input.Retry? || action.NoAction? { return; }
    if action.AbortAction? { store.Abort(); return; }
    ActionShape(t, m);
    var r := CallStore(store, action, first, second);
    ok, called := r == Ok, View(store);
    var succeeded := r == Ok && (after || action.CommitAction?);
    fault := if r == Ok then Auth else StoreFault(r);
    machine.OnComplete(action, succeeded, fault);
    if r != Ok || (!after && !action.CommitAction?) { store.Abort(); }
  }

  /** An accepted BEGIN announces an acceptable length, and DATA is never empty. */
  lemma ActionShape(t: Transfer, m: seq<byte>)
    ensures var a := Input(t, true, m).action;
            (a.BeginAction? ==> WalletCore.LengthAccepted(a.expected)) && (a.DataAction? ==> a.data != [])
  {
  }
}
