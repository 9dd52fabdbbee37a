/**
 * The session rules of the Bluetooth front end. Three threads share one record under a lock: the host
 * task's callbacks, the worker that executes queued items, and the button loop. Each step below is one
 * lock section together with the unlocked call that follows it; steps of the threads interleave freely.
 * Queues are left free: the worker may take any item ever queued, late, out of order or more than once.
 */
module WalletSession {
  import opened Bytes

  type Handle = nat
  type LinkId = nat
  type Address = nat
  const NONE: Handle := 0xffff

  datatype Security = Security(encrypted: bool, authenticated: bool, bonded: bool, keySize: nat)
  datatype Link = Link(identity: Address, security: Security)

  // ----- the policy helpers

  predicate PeerAllowed(windowOpen: bool, ownerPresent: bool, ownerMatch: bool) { windowOpen && (!ownerPresent || ownerMatch) }

  predicate RawSecure(k: Security) { k.encrypted && k.authenticated && k.bonded && k.keySize == 16 }

  predicate LinkAuthorized(k: Security, ownerMatch: bool) { RawSecure(k) && ownerMatch }

  predicate SessionMatches(generation: nat, handle: Handle, secure: bool, eventGeneration: nat, eventHandle: Handle) {
    secure && generation == eventGeneration && handle == eventHandle
  }

  predicate ConnectionAllowed(stockMode: bool, windowOpen: bool, ownerPresent: bool, ownerMatch: bool, recovery: bool, resetting: bool) {
    !resetting && (stockMode || (!recovery && PeerAllowed(windowOpen, ownerPresent, ownerMatch)))
  }

  predicate WindowDisconnect(stockMode: bool, explicitClose: bool, connected: bool, secure: bool, pairing: bool) {
    connected && (explicitClose || (!secure && (!stockMode || pairing)))
  }

  // ----- the shared record

  /** A connection as an item or a request names it: by handle and generation. The link it was meant for is kept for reasoning. */
  datatype Target = Target(handle: Handle, generation: nat, link: LinkId)

  const NO_TARGET := Target(NONE, 0, 0)

  /** instance is the link the connect callback recorded; record is the owner kept in flash. */
  datatype Ble = Ble(stockMode: bool, conn: Handle, instance: LinkId, generation: nat, control: nat, windowOpen: bool,
                     connected: bool, secure: bool, ownerPresent: bool, owner: Address, peer: Address, recovery: bool,
                     pairing: bool, released: bool, resetting: bool, passkey: nat, cancel: Target, terminate: Target,
                     confirm: Target, confirmPasskey: nat, record: Option<Address>)

  datatype Kind =
    | Open | Close | Connect | Passkey | Confirm(accept: bool, shown: nat) | Encryption(ok: bool) | Rx | ResetOwner
    | Disconnect | Tick

  datatype Work = Work(kind: Kind, target: Target, control: nat, peer: Address)

  datatype Action = Begin | Data | Commit

  /** What a link looked like when the worker asked the host about it. */
  datatype Seen = Seen(id: LinkId, link: Link)

  datatype After = Nothing | AskFor(target: Target) | Mark(work: Work) | FinishReset

  datatype Worker =
    | Idle
    | Closing(after: After)
    | Asking(target: Target, after: After)
    | Marking(work: Work)
    | Finishing(erased: bool)
    | EncRead(work: Work)
    | EncCheck(work: Work, seen: Seen)
    | EncSave(work: Work, seen: Seen)
    | EncAdopt(work: Work, seen: Seen)
    | EncUndo(work: Work, seen: Seen)
    | EncRecover(work: Work, ok: bool, seen: Seen)
    | EncFinish(work: Work, ok: bool, seen: Seen, ownerMatch: bool)
    | EncVerdict(work: Work)
    | RxStore(work: Work, action: Action)
    | RxGuard(work: Work)
    | RxComplete(work: Work)

  /** The host task between the change of a link and its callback. */
  datatype Host = HostIdle | Arrived(handle: Handle, link: LinkId) | Lost(handle: Handle, link: LinkId) | AllLost

  datatype Button =
    | ButtonIdle
    | CloseAsks(target: Target, work: Work)
    | ResetAsks(target: Target, work: Work)
    | ResetQueues(work: Work)
    | ButtonFinishing(erased: bool)

  /** What reached the store or the host stack, with the shared record at that moment; pressed tells whether the holder
      accepted this passkey on this connection with a button. */
  datatype Event =
    | StoreStarted(action: Action, work: Work, at: Ble, identity: Address)
    | CommitAllowed(work: Work, at: Ble, identity: Address)
    | Terminated(hit: LinkId, asked: LinkId)
    | Cancelled(hit: LinkId, asked: LinkId)
    | Injected(hit: LinkId, asked: LinkId, passkey: nat, at: Ble, pressed: bool)

  /** links are the host's live connections; peers describes every link there ever was; links are numbered as they come. */
  datatype State = State(ble: Ble, links: map<Handle, LinkId>, peers: map<LinkId, Link>, nextLink: LinkId, host: Host,
                         worker: Worker, button: Button, queued: set<Work>, log: seq<Event>)

  predicate Matches(b: Ble, t: Target) { t.handle != NONE && t.handle == b.conn && t.generation == b.generation }

  function Here(b: Ble): Target { Target(b.conn, b.generation, b.instance) }

  /** A host event names the current generation only if it is about the current connection. */
  function Named(s: State, h: Handle): Target
    requires h in s.links
  {
    Target(h, if s.ble.conn == h then s.ble.generation else 0, s.links[h])
  }

  function Queue(s: State, w: Work): State { s.(queued := s.queued + {w}) }

  // ----- the host task

  const UNKNOWN := Link(0, Security(false, false, false, 0))

  function PeerOf(s: State, id: LinkId): Link { if id in s.peers then s.peers[id] else UNKNOWN }

  function LinkUp(s: State, h: Handle, link: Link): State {
    var id := s.nextLink;
    s.(links := s.links[h := id], peers := s.peers[id := link], nextLink := id + 1, host := Arrived(h, id))
  }

  function ConnectCallback(s: State): State
    requires s.host.Arrived?
  {
    var b, h, peer := s.ble, s.host.handle, PeerOf(s, s.host.link).identity;
    if b.conn == NONE &&
       ConnectionAllowed(b.stockMode, b.windowOpen, b.ownerPresent, b.ownerPresent && b.owner == peer, b.recovery, b.resetting) then
      var b' := b.(generation := b.generation + 1, conn := h, instance := s.host.link, secure := false, connected := true,
                   peer := peer, pairing := false, released := false);
      Queue(s.(host := HostIdle, ble := b'), Work(Connect, Here(b'), 0, peer))
    else s.(host := HostIdle)
  }

  function LinkLost(s: State, h: Handle): State
    requires h in s.links
  {
    s.(links := s.links - {h}, host := Lost(h, s.links[h]))
  }

  /** The session ends: everything that was granted to it is withdrawn and its generation is over. */
  function Ended(b: Ble): Ble {
    b.(secure := false, connected := false, pairing := false, released := false, generation := b.generation + 1)
  }

  function DisconnectCallback(s: State): State
    requires s.host.Lost?
  {
    var b, h := s.ble, s.host.handle;
    var mine := b.conn == h;
    var work := Work(Disconnect, Target(h, if mine then b.generation else 0, s.host.link), 0, 0);
    Queue(s.(host := HostIdle, ble := if mine then Ended(b).(conn := NONE) else b), work)
  }

  function ResetCallback(s: State): State { s.(host := HostIdle, ble := Ended(s.ble).(conn := NONE)) }

  /** A link that is encrypted, authenticated and bonded stays so, under the identity it bonded with. */
  predicate Settled(before: Link, after: Link) {
    RawSecure(before.security) ==> RawSecure(after.security) && after.identity == before.identity
  }

  /** Keys arriving during pairing may settle a link's identity; afterwards it is fixed. */
  function LinkChanges(s: State, h: Handle, link: Link): State
    requires h in s.links
  {
    s.(peers := s.peers[s.links[h] := link])
  }

  function EncryptionChanged(s: State, h: Handle, ok: bool): State
    requires h in s.links
  {
    Queue(s, Work(Encryption(ok), Named(s, h), 0, 0))
  }

  function PasskeyShown(s: State, h: Handle): State
    requires h in s.links
  {
    var b, t := s.ble, Named(s, h);
    if b.connected && t.generation != 0 && !b.recovery && !b.resetting &&
       PeerAllowed(b.windowOpen, b.ownerPresent, b.ownerPresent && b.owner == b.peer) then
      Queue(s.(ble := b.(pairing := true)), Work(Passkey, t, 0, 0))
    else s
  }

  function Write(s: State, h: Handle): State
    requires h in s.links
  {
    var b := s.ble;
    if b.secure && b.connected && b.conn == h then Queue(s, Work(Rx, Target(h, b.generation, s.links[h]), 0, 0)) else s
  }

  /** The holder's acceptance of a passkey shown for a connection. */
  function Press(t: Target, passkey: nat): Work { Work(Confirm(true, passkey), t, 0, 0) }

  /** The passkey may be released: its request is current and so is everything the request relied on. */
  predicate Confirms(b: Ble) {
    Matches(b, b.confirm) && b.connected && b.windowOpen && b.pairing && b.released && !b.resetting && !b.recovery &&
    b.confirmPasskey == b.passkey
  }

  /** The host task serves the requests left in the shared record; whatever it does hits the link behind the handle then. */
  function Control(s: State): State {
    var b := s.ble;
    var cancelled :=
      if b.stockMode && Matches(b, b.cancel) && b.cancel.handle in s.links then [Cancelled(s.links[b.cancel.handle], b.cancel.link)] else [];
    var done :=
      if Matches(b, b.terminate) then
        if b.terminate.handle in s.links then [Terminated(s.links[b.terminate.handle], b.terminate.link)] else []
      else if Confirms(b) && b.confirm.handle in s.links then
        [Injected(s.links[b.confirm.handle], b.confirm.link, b.confirmPasskey, b, Press(b.confirm, b.confirmPasskey) in s.queued)]
      else [];
    s.(ble := b.(cancel := NO_TARGET, terminate := NO_TARGET, confirm := NO_TARGET), log := s.log + cancelled + done)
  }

  // ----- requests

  function RequestTermination(b: Ble, t: Target): Ble { if Matches(b, t) then b.(terminate := t) else b }

  function Proceed(after: After): Worker {
    match after
    case Nothing => Idle
    case AskFor(t) => Asking(t, Nothing)
    case Mark(w) => Marking(w)
    case FinishReset => Finishing(false)
  }

  // ----- the worker

  function TakeOpen(s: State, w: Work): State {
    var b := s.ble;
    if w.control != b.control || b.resetting then s else s.(ble := b.(windowOpen := true))
  }

  /** After opening, a connection that is already encrypted is looked at again. */
  function Recheck(s: State): State {
    if s.ble.conn == NONE then s else Queue(s, Work(Encryption(true), Here(s.ble), 0, 0))
  }

  function TakeClose(s: State, w: Work): State {
    if w.control != s.ble.control then s
    else s.(worker := Closing(if Matches(s.ble, w.target) then AskFor(w.target) else Nothing))
  }

  function CloseWindow(s: State): State
    requires s.worker.Closing?
  {
    var b, after := s.ble, s.worker.after;
    var next := if WindowDisconnect(b.stockMode, false, b.connected, b.secure, b.pairing) && b.conn != NONE then Asking(Here(b), after)
                else Proceed(after);
    s.(ble := b.(windowOpen := false), worker := next)
  }

  function Ask(s: State): State
    requires s.worker.Asking?
  {
    s.(ble := RequestTermination(s.ble, s.worker.target), worker := Proceed(s.worker.after))
  }

  function TakeConnect(s: State, w: Work): State {
    var b := s.ble;
    if w.target.generation != b.generation || w.target.handle != b.conn then s
    else if ConnectionAllowed(b.stockMode, b.windowOpen, b.ownerPresent, b.ownerPresent && b.owner == w.peer, b.recovery, b.resetting) then
      s.(ble := b.(connected := true, conn := w.target.handle, peer := w.peer))
    else s.(worker := Asking(w.target, Nothing))
  }

  function TakePasskey(s: State, w: Work, passkey: nat): State {
    var b := s.ble;
    if !b.recovery && b.connected && b.generation == w.target.generation && b.conn == w.target.handle &&
       PeerAllowed(b.windowOpen, b.ownerPresent, !b.ownerPresent || b.owner == b.peer) then
      s.(ble := b.(passkey := passkey, pairing := true, released := false))
    else s.(worker := Asking(w.target, Nothing))
  }

  function TakeConfirm(s: State, w: Work): State
    requires w.kind.Confirm?
  {
    var b := s.ble;
    if w.kind.accept && b.generation == w.target.generation && b.conn == w.target.handle && b.passkey == w.kind.shown &&
       b.windowOpen && b.pairing && b.connected && (!b.ownerPresent || b.owner == b.peer) then
      s.(ble := b.(released := true, confirm := w.target, confirmPasskey := b.passkey))
    else if b.conn != NONE then s.(worker := Asking(w.target, Nothing))
    else s
  }

  predicate EncCurrent(b: Ble, w: Work) {
    !b.recovery && b.generation == w.target.generation && b.connected && (b.windowOpen || b.secure) && b.conn == w.target.handle
  }

  function TakeEncryption(s: State, w: Work): State { if EncCurrent(s.ble, w) then s.(worker := EncRead(w)) else s }

  /** The host is asked about whatever link has the handle now. */
  function ReadLink(s: State): State
    requires s.worker.EncRead?
  {
    var w := s.worker.work;
    if w.kind == Encryption(true) && w.target.handle in s.links then
      var id := s.links[w.target.handle];
      s.(worker := EncCheck(w, Seen(id, PeerOf(s, id))))
    else s.(worker := EncFinish(w, false, Seen(0, UNKNOWN), false))
  }

  function CheckOwner(s: State): State
    requires s.worker.EncCheck?
  {
    var w, seen := s.worker.work, s.worker.seen;
    if RawSecure(seen.link.security) && !s.ble.ownerPresent then s.(worker := EncSave(w, seen))
    else s.(worker := EncFinish(w, true, seen, s.ble.ownerPresent && s.ble.owner == seen.link.identity))
  }

  /** Saving the owner may fail, with or without having reached flash. */
  function SaveOwner(s: State, ok: bool, reached: bool): State
    requires s.worker.EncSave?
  {
    var w, seen := s.worker.work, s.worker.seen;
    s.(ble := if ok || reached then s.ble.(record := Some(seen.link.identity)) else s.ble,
       worker := if ok then EncAdopt(w, seen) else EncRecover(w, false, seen))
  }

  function AdoptOwner(s: State): State
    requires s.worker.EncAdopt?
  {
    var b, w, seen := s.ble, s.worker.work, s.worker.seen;
    if EncCurrent(b, w) && b.windowOpen then
      s.(ble := b.(owner := seen.link.identity, ownerPresent := true), worker := EncFinish(w, true, seen, true))
    else s.(worker := EncUndo(w, seen))
  }

  function UndoSave(s: State, erased: bool): State
    requires s.worker.EncUndo?
  {
    s.(ble := if erased then s.ble.(record := None) else s.ble, worker := EncRecover(s.worker.work, true, s.worker.seen))
  }

  function Recover(s: State): State
    requires s.worker.EncRecover?
  {
    s.(ble := s.ble.(recovery := true), worker := EncFinish(s.worker.work, s.worker.ok, s.worker.seen, false))
  }

  function FinishEncryption(s: State): State
    requires s.worker.EncFinish?
  {
    var b, w, seen := s.ble, s.worker.work, s.worker.seen;
    if w.target.generation != b.generation || b.conn != w.target.handle then s.(worker := Idle)
    else
      s.(ble := b.(secure := EncCurrent(b, w) && s.worker.ok && LinkAuthorized(seen.link.security, s.worker.ownerMatch),
                   pairing := false, released := false),
         worker := EncVerdict(w))
  }

  function Verdict(s: State): State
    requires s.worker.EncVerdict?
  {
    s.(worker := if s.ble.secure then Idle else Asking(s.worker.work.target, Nothing))
  }

  function HolderIdentity(s: State): Address { PeerOf(s, s.ble.instance).identity }

  /** The transfer machine has turned the item into a store action; an item outside the session does nothing. */
  function TakeWrite(s: State, w: Work, action: Option<Action>): State {
    var b := s.ble;
    if !SessionMatches(b.generation, b.conn, b.secure, w.target.generation, w.target.handle) || action.None? then s
    else s.(worker := RxStore(w, action.value), log := s.log + [StoreStarted(action.value, w, b, HolderIdentity(s))])
  }

  /** A commit asks the guard before preparing and again before its marker. */
  function StoreReturns(s: State): State
    requires s.worker.RxStore?
  {
    var b, w := s.ble, s.worker.work;
    if s.worker.action != Commit then s.(worker := RxComplete(w))
    else s.(worker := if SessionMatches(b.generation, b.conn, b.secure, w.target.generation, w.target.handle) then RxGuard(w) else RxComplete(w))
  }

  function SecondGuard(s: State): State
    requires s.worker.RxGuard?
  {
    var b, w := s.ble, s.worker.work;
    var valid := SessionMatches(b.generation, b.conn, b.secure, w.target.generation, w.target.handle);
    s.(worker := RxComplete(w), log := if valid then s.log + [CommitAllowed(w, b, HolderIdentity(s))] else s.log)
  }

  function TakeDisconnect(s: State): State { if s.ble.resetting then s.(worker := Finishing(false)) else s }

  function TakeTick(s: State, late: bool): State {
    var reset := s.ble.resetting && s.ble.conn == NONE;
    var after := if reset then FinishReset else Nothing;
    s.(worker := if s.ble.windowOpen && late then Closing(after) else Proceed(after))
  }

  function TakeReset(s: State, w: Work): State {
    if s.ble.resetting && w.control == s.ble.control then s.(worker := Closing(Mark(w))) else s
  }

  function MarkReset(s: State): State
    requires s.worker.Marking?
  {
    var w := s.worker.work;
    s.(ble := s.ble.(resetting := true), worker := if w.target.handle != NONE then Asking(w.target, Nothing) else Finishing(false))
  }

  /** The bonds and the record are gone, or something failed. */
  function ResetFinished(b: Ble, ok: bool): Ble {
    if ok then b.(owner := 0, ownerPresent := false, recovery := false, resetting := false)
    else if b.stockMode then b.(recovery := true, resetting := false)
    else b
  }

  // ----- the buttons

  function PressOpen(s: State, fits: bool): State {
    var b := s.ble;
    if b.resetting || !fits then s
    else Queue(s.(ble := b.(control := b.control + 1)), Work(Open, NO_TARGET, b.control + 1, 0))
  }

  function PressClose(s: State): State {
    var b := Ended(s.ble.(control := s.ble.control + 1, windowOpen := false));
    s.(ble := b.(cancel := Here(b)), button := CloseAsks(Here(b), Work(Close, Here(b), b.control, 0)))
  }

  function PressConfirm(s: State, accept: bool): State { Queue(s, Work(Confirm(accept, s.ble.passkey), Here(s.ble), 0, 0)) }

  function PressReset(s: State): State {
    var b := Ended(s.ble.(control := s.ble.control + 1, windowOpen := false, resetting := true));
    s.(ble := b.(cancel := Here(b)), button := ResetAsks(Here(b), Work(ResetOwner, Here(b), b.control, 0)))
  }

  function ButtonAsks(s: State): State
    requires s.button.CloseAsks? || s.button.ResetAsks?
  {
    var b := RequestTermination(s.ble, s.button.target);
    if s.button.CloseAsks? then Queue(s.(ble := b, button := ButtonIdle), s.button.work)
    else s.(ble := b, button := ResetQueues(s.button.work))
  }

  /** A full queue with no connection makes the button thread finish the reset itself. */
  function ResetQueued(s: State, fits: bool): State
    requires s.button.ResetQueues?
  {
    var w := s.button.work;
    if fits then Queue(s.(button := ButtonIdle), w)
    else s.(button := if w.target.handle == NONE then ButtonFinishing(false) else ButtonIdle)
  }

  // ----- runs

  datatype Step =
    | DoLinkUp(handle: Handle, link: Link) | DoConnect | DoLinkLost(handle: Handle) | DoDisconnect | DoAllLost | DoHostReset
    | DoLinkChange(handle: Handle, link: Link) | DoEncryption(handle: Handle, ok: bool) | DoPasskey(handle: Handle)
    | DoWrite(handle: Handle) | DoControl
    | DoTake(work: Work, passkey: nat, action: Option<Action>, late: bool) | DoRecheck | DoCloseWindow | DoAsk | DoMark
    | DoErase | DoFinish(ok: bool) | DoRead | DoCheck | DoSave(ok: bool, reached: bool) | DoAdopt | DoUndo(erased: bool) | DoRecover
    | DoFinishEncryption | DoVerdict | DoStoreReturns | DoSecondGuard | DoComplete
    | DoPressOpen(fits: bool) | DoPressClose | DoPressConfirm(accept: bool) | DoPressReset | DoButtonAsks | DoResetQueued(fits: bool)
    | DoButtonErase | DoButtonFinish(ok: bool)

  predicate HostEnabled(s: State, e: Step) {
    match e
    case DoLinkUp(h, _) => s.host.HostIdle? && h != NONE && h !in s.links
    case DoConnect => s.host.Arrived?
    case DoLinkLost(h) => s.host.HostIdle? && h in s.links
    case DoDisconnect => s.host.Lost?
    case DoAllLost => s.host.HostIdle?
    case DoHostReset => s.host.AllLost?
    case DoLinkChange(h, link) =>
      s.host.HostIdle? && h in s.links && Settled(PeerOf(s, s.links[h]), link)
    case DoEncryption(h, _) => s.host.HostIdle? && h in s.links
    case DoPasskey(h) => s.host.HostIdle? && h in s.links
    case DoWrite(h) => s.host.HostIdle? && h in s.links
    case DoControl => s.host.HostIdle?
    case _ => false
  }

  predicate WorkerEnabled(s: State, e: Step) {
    match e
    case DoTake(w, _, _, _) => s.worker.Idle? && w in s.queued
    case DoRecheck => s.worker.Idle?
    case DoCloseWindow => s.worker.Closing?
    case DoAsk => s.worker.Asking?
    case DoMark => s.worker.Marking?
    case DoErase => s.worker.Finishing?
    case DoFinish(ok) => s.worker.Finishing? && (ok ==> s.worker.erased)
    case DoRead => s.worker.EncRead?
    case DoCheck => s.worker.EncCheck?
    case DoSave(_, _) => s.worker.EncSave?
    case DoAdopt => s.worker.EncAdopt?
    case DoUndo(_) => s.worker.EncUndo?
    case DoRecover => s.worker.EncRecover?
    case DoFinishEncryption => s.worker.EncFinish?
    case DoVerdict => s.worker.EncVerdict?
    case DoStoreReturns => s.worker.RxStore?
    case DoSecondGuard => s.worker.RxGuard?
    case DoComplete => s.worker.RxComplete?
    case _ => false
  }

  predicate ButtonEnabled(s: State, e: Step) {
    match e
    case DoPressOpen(_) => s.button.ButtonIdle?
    case DoPressClose => s.button.ButtonIdle?
    case DoPressConfirm(_) => s.button.ButtonIdle?
    case DoPressReset => s.button.ButtonIdle?
    case DoButtonAsks => s.button.CloseAsks? || s.button.ResetAsks?
    case DoResetQueued(_) => s.button.ResetQueues?
    case DoButtonErase => s.button.ButtonFinishing?
    case DoButtonFinish(ok) => s.button.ButtonFinishing? && (ok ==> s.button.erased)
    case _ => false
  }

  predicate Enabled(s: State, e: Step) { HostEnabled(s, e) || WorkerEnabled(s, e) || ButtonEnabled(s, e) }

  function Take(s: State, w: Work, passkey: nat, action: Option<Action>, late: bool): State {
    match w.kind
    case Open => TakeOpen(s, w)
    case Close => TakeClose(s, w)
    case Connect => TakeConnect(s, w)
    case Passkey => TakePasskey(s, w, passkey)
    case Confirm(_, _) => TakeConfirm(s, w)
    case Encryption(_) => TakeEncryption(s, w)
    case Rx => TakeWrite(s, w, action)
    case ResetOwner => TakeReset(s, w)
    case Disconnect => TakeDisconnect(s)
    case Tick => TakeTick(s, late)
  }

  function HostStep(s: State, e: Step): State
    requires HostEnabled(s, e)
  {
    match e
    case DoLinkUp(h, link) => LinkUp(s, h, link)
    case DoConnect => ConnectCallback(s)
    case DoLinkLost(h) => LinkLost(s, h)
    case DoDisconnect => DisconnectCallback(s)
    case DoAllLost => s.(links := map[], host := AllLost)
    case DoHostReset => ResetCallback(s)
    case DoLinkChange(h, link) => LinkChanges(s, h, link)
    case DoEncryption(h, ok) => EncryptionChanged(s, h, ok)
    case DoPasskey(h) => PasskeyShown(s, h)
    case DoWrite(h) => Write(s, h)
    case DoControl => Control(s)
  }

  function WorkerStep(s: State, e: Step): State
    requires WorkerEnabled(s, e)
  {
    match e
    case DoTake(w, passkey, action, late) => Take(s, w, passkey, action, late)
    case DoRecheck => Recheck(s)
    case DoCloseWindow => CloseWindow(s)
    case DoAsk => Ask(s)
    case DoMark => MarkReset(s)
    case DoErase => s.(ble := s.ble.(record := None), worker := Finishing(true))
    case DoFinish(ok) => s.(ble := ResetFinished(s.ble, ok), worker := Idle)
    case DoRead => ReadLink(s)
    case DoCheck => CheckOwner(s)
    case DoSave(ok, reached) => SaveOwner(s, ok, reached)
    case DoAdopt => AdoptOwner(s)
    case DoUndo(erased) => UndoSave(s, erased)
    case DoRecover => Recover(s)
    case DoFinishEncryption => FinishEncryption(s)
    case DoVerdict => Verdict(s)
    case DoStoreReturns => StoreReturns(s)
    case DoSecondGuard => SecondGuard(s)
    case DoComplete => s.(worker := Idle)
  }

  function ButtonStep(s: State, e: Step): State
    requires ButtonEnabled(s, e)
  {
    match e
    case DoPressOpen(fits) => PressOpen(s, fits)
    case DoPressClose => PressClose(s)
    case DoPressConfirm(accept) => PressConfirm(s, accept)
    case DoPressReset => PressReset(s)
    case DoButtonAsks => ButtonAsks(s)
    case DoResetQueued(fits) => ResetQueued(s, fits)
    case DoButtonErase => s.(ble := s.ble.(record := None), button := ButtonFinishing(true))
    case DoButtonFinish(ok) => s.(ble := ResetFinished(s.ble, ok), button := ButtonIdle)
  }

  function Apply(s: State, e: Step): State
    requires Enabled(s, e)
  {
    if HostEnabled(s, e) then HostStep(s, e) else if WorkerEnabled(s, e) then WorkerStep(s, e) else ButtonStep(s, e)
  }

  /** Start-up: nothing connected, nothing queued, and an owner only if its record is in flash. */
  predicate Initial(s: State) {
    var b := s.ble;
    b.conn == NONE && b.generation == 0 && !b.windowOpen && !b.connected && !b.secure && !b.pairing && !b.released && !b.resetting &&
    b.cancel == NO_TARGET && b.terminate == NO_TARGET && b.confirm == NO_TARGET && (b.ownerPresent ==> b.record == Some(b.owner)) &&
    s.links == map[] && s.peers == map[] && s.host.HostIdle? && s.worker.Idle? && s.button.ButtonIdle? &&
    (forall w | w in s.queued :: w.kind.Tick? && w.target == NO_TARGET) && s.log == []
  }

  ghost predicate Follows(s: State, t: State) { exists e :: Enabled(s, e) && t == Apply(s, e) }

  ghost predicate Run(run: seq<State>) {
    |run| > 0 && Initial(run[0]) && forall i | 0 < i < |run| :: Follows(run[i - 1], run[i])
  }

  // ----- what every step keeps

  predicate Good(b: Ble, t: Target) { t.generation <= b.generation && (Matches(b, t) ==> t.link == b.instance) }

  function WorkerTarget(w: Worker): Target {
    match w
    case Asking(t, _) => t
    case Closing(AskFor(t)) => t
    case Closing(Mark(w)) => w.target
    case Marking(w) => w.target
    case EncRead(w) => w.target
    case EncCheck(w, _) => w.target
    case EncSave(w, _) => w.target
    case EncAdopt(w, _) => w.target
    case EncUndo(w, _) => w.target
    case EncRecover(w, _, _) => w.target
    case EncFinish(w, _, _, _) => w.target
    case EncVerdict(w) => w.target
    case RxStore(w, _) => w.target
    case RxGuard(w) => w.target
    case RxComplete(w) => w.target
    case _ => NO_TARGET
  }

  function AfterTarget(w: Worker): Target {
    match w
    case Asking(_, AskFor(t)) => t
    case Asking(_, Mark(w)) => w.target
    case _ => NO_TARGET
  }

  function ButtonTarget(b: Button): Target {
    match b
    case CloseAsks(t, _) => t
    case ResetAsks(t, _) => t
    case _ => NO_TARGET
  }

  function ButtonWork(b: Button): Target {
    match b
    case CloseAsks(_, w) => w.target
    case ResetAsks(_, w) => w.target
    case ResetQueues(w) => w.target
    case _ => NO_TARGET
  }

  /** Everything that names the current session means the link the session was opened on. */
  predicate Targets(s: State) {
    Good(s.ble, s.ble.cancel) && Good(s.ble, s.ble.terminate) && Good(s.ble, s.ble.confirm) &&
    Good(s.ble, WorkerTarget(s.worker)) && Good(s.ble, AfterTarget(s.worker)) &&
    Good(s.ble, ButtonTarget(s.button)) && Good(s.ble, ButtonWork(s.button)) &&
    forall w | w in s.queued :: Good(s.ble, w.target)
  }

  /** The connection on record is the live link of its handle, until its loss has been reported. */
  predicate LinkedTo(conn: Handle, instance: LinkId, links: map<Handle, LinkId>, peers: map<LinkId, Link>, next: LinkId, host: Host) {
    (forall h | h in links :: links[h] in peers && h != NONE) &&
    (forall id | id in peers :: id < next) &&
    (conn in links ==> links[conn] == instance) &&
    (conn != NONE ==> instance in peers) &&
    match host
    case HostIdle => conn != NONE ==> conn in links
    case Arrived(h, id) => h in links && links[h] == id && (conn != NONE ==> conn in links && conn != h)
    case Lost(h, id) => h !in links && h != NONE && (conn != NONE && conn != h ==> conn in links) && (conn == h ==> id == instance)
    case AllLost => links == map[]
  }

  predicate Linked(s: State) { LinkedTo(s.ble.conn, s.ble.instance, s.links, s.peers, s.nextLink, s.host) }

  predicate InEncryption(w: Worker) {
    w.EncRead? || w.EncCheck? || w.EncSave? || w.EncAdopt? || w.EncUndo? || w.EncRecover? || w.EncFinish? || w.EncVerdict?
  }

  /** The worker is looking at the encryption of the session that is still current. */
  predicate LiveEncryption(s: State) { InEncryption(s.worker) && Matches(s.ble, WorkerTarget(s.worker)) }

  /** The worker is on its way through an owner reset. */
  predicate ResetPath(w: Worker) {
    w.Marking? || w.Finishing? || (w.Closing? && (w.after.Mark? || w.after.FinishReset?)) ||
    (w.Asking? && (w.after.Mark? || w.after.FinishReset?))
  }

  predicate ButtonReset(b: Button) { b.ResetAsks? || b.ResetQueues? || b.ButtonFinishing? }

  /** Nothing is granted and nothing can be. */
  predicate Shut(b: Ble) { !b.windowOpen && !b.secure }

  /** The owner's record may be out of step with the owner only under one of these. */
  predicate Unsettled(b: Ble) { b.resetting || b.recovery || !b.ownerPresent }

  predicate Quiet(s: State) {
    (s.ble.resetting ==> Shut(s.ble) && !LiveEncryption(s)) &&
    (ResetPath(s.worker) ==> Shut(s.ble) && Unsettled(s.ble)) &&
    (ButtonReset(s.button) ==> Shut(s.ble) && Unsettled(s.ble) && !LiveEncryption(s))
  }

  /** An opened window was asked for by the last button press; nothing older can open it. */
  predicate Items(s: State) {
    (forall w | w in s.queued && w.kind.Open? :: w.control <= s.ble.control && (ButtonReset(s.button) ==> w.control < s.ble.control)) &&
    (forall w | w in s.queued && w.kind.Connect? :: w.target.handle != NONE) &&
    (forall w | w in s.queued && w.kind.Confirm? :: w.control == 0 && w.peer == 0) &&
    (s.ble.confirm.handle != NONE ==> Press(s.ble.confirm, s.ble.confirmPasskey) in s.queued) &&
    match s.button
    case CloseAsks(_, w) => w.kind.Close?
    case ResetAsks(_, w) => w.kind.ResetOwner?
    case ResetQueues(w) => w.kind.ResetOwner?
    case _ => true
  }

  predicate SeenRight(s: State, w: Work, seen: Seen) {
    (Matches(s.ble, w.target) ==> seen.id == s.ble.instance) &&
    (RawSecure(seen.link.security) ==> seen.id in s.peers && RawSecure(s.peers[seen.id].security) &&
                                       s.peers[seen.id].identity == seen.link.identity)
  }

  predicate Encrypting(s: State) {
    match s.worker
    case EncCheck(w, seen) => SeenRight(s, w, seen)
    case EncSave(w, seen) => SeenRight(s, w, seen) && RawSecure(seen.link.security) && !s.ble.ownerPresent
    case EncAdopt(w, seen) =>
      SeenRight(s, w, seen) && RawSecure(seen.link.security) && !s.ble.ownerPresent &&
      (Matches(s.ble, w.target) ==> s.ble.record == Some(seen.link.identity))
    case EncUndo(w, seen) => !s.ble.ownerPresent
    case EncRecover(w, _, seen) => !s.ble.ownerPresent
    case EncFinish(w, ok, seen, ownerMatch) =>
      ok && ownerMatch ==>
        SeenRight(s, w, seen) && (Matches(s.ble, w.target) ==> s.ble.ownerPresent && s.ble.owner == seen.link.identity)
    case _ => true
  }

  /** The session is secure only for the owner, on the link it was opened on. */
  predicate SecureForOwner(s: State) {
    var b := s.ble;
    (b.connected ==> b.conn != NONE) &&
    (b.secure ==> b.connected && b.ownerPresent && !b.recovery && b.instance in s.peers && RawSecure(s.peers[b.instance].security) &&
                  s.peers[b.instance].identity == b.owner)
  }

  predicate Recorded(s: State) {
    !Unsettled(s.ble) && !ResetPath(s.worker) && !ButtonReset(s.button) ==> s.ble.record == Some(s.ble.owner)
  }

  predicate Authorized(b: Ble, t: Target, identity: Address) {
    b.secure && b.connected && b.ownerPresent && identity == b.owner && b.record == Some(b.owner) &&
    t.handle == b.conn && t.generation == b.generation && t.link == b.instance
  }

  predicate EventRight(e: Event) {
    match e
    case StoreStarted(_, w, at, identity) => Authorized(at, w.target, identity)
    case CommitAllowed(w, at, identity) => Authorized(at, w.target, identity)
    case Terminated(hit, asked) => hit == asked
    case Cancelled(hit, asked) => hit == asked
    case Injected(hit, asked, passkey, at, pressed) => hit == asked == at.instance && at.windowOpen && passkey == at.passkey && pressed
  }

  predicate Inv(s: State) {
    Targets(s) && Linked(s) && Quiet(s) && Items(s) && Encrypting(s) && SecureForOwner(s) && Recorded(s) &&
    forall e | e in s.log :: EventRight(e)
  }

  lemma LinkUpKeeps(s: State, h: Handle, link: Link)
    requires Inv(s)
    requires HostEnabled(s, DoLinkUp(h, link))
    ensures Inv(LinkUp(s, h, link))
  {
    hide EventRight;
  }

  lemma ConnectKeeps(s: State)
    requires Inv(s)
    requires s.host.Arrived?
    ensures Inv(ConnectCallback(s))
  {
    hide EventRight;
  }

  lemma LinkLostKeeps(s: State, h: Handle)
    requires Inv(s)
    requires s.host.HostIdle? && h in s.links
    ensures Inv(LinkLost(s, h))
  {
    hide EventRight;
  }

  lemma DisconnectKeeps(s: State)
    requires Inv(s)
    requires s.host.Lost?
    ensures Inv(DisconnectCallback(s))
  {
    hide EventRight;
  }

  lemma AllLostKeeps(s: State)
    requires Inv(s)
    requires s.host.HostIdle?
    ensures Inv(s.(links := map[], host := AllLost))
  {
    hide EventRight;
  }

  lemma HostResetKeeps(s: State)
    requires Inv(s)
    requires s.host.AllLost?
    ensures Inv(ResetCallback(s))
  {
    hide EventRight;
  }

  lemma LinkChangesKeeps(s: State, h: Handle, link: Link)
    requires Inv(s)
    requires HostEnabled(s, DoLinkChange(h, link))
    ensures Inv(LinkChanges(s, h, link))
  {
    hide EventRight;
  }

  lemma EncryptionChangedKeeps(s: State, h: Handle, ok: bool)
    requires Inv(s)
    requires s.host.HostIdle? && h in s.links
    ensures Inv(EncryptionChanged(s, h, ok))
  {
    hide EventRight;
  }

  lemma PasskeyShownKeeps(s: State, h: Handle)
    requires Inv(s)
    requires s.host.HostIdle? && h in s.links
    ensures Inv(PasskeyShown(s, h))
  {
    hide EventRight;
  }

  lemma WriteKeeps(s: State, h: Handle)
    requires Inv(s)
    requires s.host.HostIdle? && h in s.links
    ensures Inv(Write(s, h))
  {
    hide EventRight;
  }

  lemma ControlKeeps(s: State)
    requires Inv(s)
    requires s.host.HostIdle?
    ensures Inv(Control(s))
  {
  }

  lemma TakeOpenKeeps(s: State, w: Work)
    requires Inv(s)
    requires s.worker.Idle? && w in s.queued
    requires w.kind.Open?
    ensures Inv(TakeOpen(s, w))
  {
    hide LinkedTo, EventRight;
  }

  lemma RecheckKeeps(s: State)
    requires Inv(s)
    ensures Inv(Recheck(s))
  {
    hide LinkedTo, EventRight;
  }

  lemma TakeCloseKeeps(s: State, w: Work)
    requires Inv(s)
    requires s.worker.Idle? && w in s.queued
    ensures Inv(TakeClose(s, w))
  {
    hide LinkedTo, EventRight;
  }

  lemma WindowShutKeeps(s: State)
    requires Inv(s)
    ensures Inv(s.(ble := s.ble.(windowOpen := false)))
  {
    hide LinkedTo, EventRight;
  }

  lemma ClosedKeeps(s: State)
    requires Inv(s)
    requires s.worker.Closing?
    ensures Inv(s.(worker := Proceed(s.worker.after))) && Inv(s.(worker := Asking(Here(s.ble), s.worker.after)))
  {
    hide LinkedTo, EventRight;
  }

  lemma CloseWindowKeeps(s: State)
    requires Inv(s)
    requires s.worker.Closing?
    ensures Inv(CloseWindow(s))
  {
    hide Inv, Proceed, WindowDisconnect;
    WindowShutKeeps(s);
    ClosedKeeps(s.(ble := s.ble.(windowOpen := false)));
  }

  lemma CloseAsked(s: State)
    requires Inv(s)
    requires s.button.CloseAsks?
    ensures Inv(Queue(s.(button := ButtonIdle), s.button.work))
  {
    hide LinkedTo, EventRight;
  }

  lemma ResetAsked(s: State)
    requires Inv(s)
    requires s.button.ResetAsks?
    ensures Inv(s.(button := ResetQueues(s.button.work)))
  {
    hide LinkedTo, EventRight;
  }

  lemma ProceedKeeps(s: State)
    requires Inv(s)
    requires s.worker.Asking?
    ensures Inv(s.(worker := Proceed(s.worker.after)))
  {
    hide LinkedTo, EventRight;
  }

  lemma AskTarget(s: State)
    requires Inv(s) && s.worker.Asking?
    ensures Good(s.ble, s.worker.target)
  {
    hide LinkedTo, EventRight, Encrypting, SecureForOwner, Recorded, Quiet, Items;
  }

  lemma RequestKeeps(s: State, t: Target)
    requires Inv(s)
    requires Good(s.ble, t)
    ensures Inv(s.(ble := RequestTermination(s.ble, t)))
  {
    hide LinkedTo, EventRight;
  }

  lemma AskKeeps(s: State)
    requires Inv(s)
    requires s.worker.Asking?
    ensures Inv(Ask(s))
  {
    hide Inv, RequestTermination, Proceed;
    AskTarget(s);
    RequestKeeps(s, s.worker.target);
    ProceedKeeps(s.(ble := RequestTermination(s.ble, s.worker.target)));
  }

  /** Asking for a termination, whatever comes of it, is always in order. */
  lemma AskNext(s: State, w: Work)
    requires Inv(s) && s.worker.Idle? && w in s.queued
    ensures Inv(s.(worker := Asking(w.target, Nothing)))
  {
    hide LinkedTo, EventRight;
  }

  lemma JoinKeeps(s: State, peer: Address)
    requires Inv(s) && s.ble.conn != NONE
    ensures Inv(s.(ble := s.ble.(connected := true, peer := peer)))
  {
    hide LinkedTo, EventRight;
  }

  lemma QueuedConnect(s: State, w: Work)
    requires Inv(s) && w in s.queued && w.kind.Connect?
    ensures w.target.handle != NONE
  {
    hide LinkedTo, EventRight, Targets, Quiet, Encrypting, SecureForOwner, Recorded;
  }

  lemma TakeConnectKeeps(s: State, w: Work)
    requires Inv(s)
    requires s.worker.Idle? && w in s.queued
    requires w.kind.Connect?
    ensures Inv(TakeConnect(s, w))
  {
    hide Inv;
    QueuedConnect(s, w);
    AskNext(s, w);
    if s.ble.conn != NONE { JoinKeeps(s, w.peer); }
  }

  lemma TakePasskeyKeeps(s: State, w: Work, passkey: nat)
    requires Inv(s)
    requires s.worker.Idle? && w in s.queued
    ensures Inv(TakePasskey(s, w, passkey))
  {
    hide LinkedTo, EventRight;
  }

  lemma TakeConfirmKeeps(s: State, w: Work)
    requires Inv(s)
    requires s.worker.Idle? && w in s.queued
    requires w.kind.Confirm?
    ensures Inv(TakeConfirm(s, w))
  {
    hide LinkedTo, EventRight;
  }

  lemma TakeEncryptionKeeps(s: State, w: Work)
    requires Inv(s)
    requires s.worker.Idle? && w in s.queued
    ensures Inv(TakeEncryption(s, w))
  {
    hide LinkedTo, EventRight;
  }

  lemma ReadLinkKeeps(s: State)
    requires Inv(s)
    requires s.worker.EncRead?
    ensures Inv(ReadLink(s))
  {
    hide EventRight;
  }

  lemma CheckOwnerKeeps(s: State)
    requires Inv(s)
    requires s.worker.EncCheck?
    ensures Inv(CheckOwner(s))
  {
    hide LinkedTo, EventRight;
  }

  lemma SaveOwnerKeeps(s: State, ok: bool, reached: bool)
    requires Inv(s)
    requires s.worker.EncSave?
    ensures Inv(SaveOwner(s, ok, reached))
  {
    hide LinkedTo, EventRight;
  }

  lemma AdoptOwnerKeeps(s: State)
    requires Inv(s)
    requires s.worker.EncAdopt?
    ensures Inv(AdoptOwner(s))
  {
    hide LinkedTo, EventRight;
  }

  lemma UndoSaveKeeps(s: State, erased: bool)
    requires Inv(s)
    requires s.worker.EncUndo?
    ensures Inv(UndoSave(s, erased))
  {
    hide LinkedTo, EventRight;
  }

  lemma RecoverKeeps(s: State)
    requires Inv(s)
    requires s.worker.EncRecover?
    ensures Inv(Recover(s))
  {
    hide LinkedTo, EventRight;
  }

  lemma EncryptionDropped(s: State)
    requires Inv(s) && s.worker.EncFinish?
    ensures Inv(s.(worker := Idle))
  {
    hide LinkedTo, EventRight;
  }

  /** The verdict on the session that is still current. */
  lemma EncryptionJudged(s: State, secure: bool)
    requires Inv(s) && s.worker.EncFinish? && s.worker.work.target.generation == s.ble.generation
    requires s.ble.conn == s.worker.work.target.handle
    requires secure ==> EncCurrent(s.ble, s.worker.work) && s.worker.ok && LinkAuthorized(s.worker.seen.link.security, s.worker.ownerMatch)
    ensures Inv(s.(ble := s.ble.(secure := secure, pairing := false, released := false), worker := EncVerdict(s.worker.work)))
  {
    hide LinkedTo, EventRight;
  }

  lemma FinishEncryptionKeeps(s: State)
    requires Inv(s)
    requires s.worker.EncFinish?
    ensures Inv(FinishEncryption(s))
  {
    hide Inv, EncCurrent, LinkAuthorized;
    EncryptionDropped(s);
    if s.worker.work.target.generation == s.ble.generation && s.ble.conn == s.worker.work.target.handle {
      EncryptionJudged(s, FinishEncryption(s).ble.secure);
    }
  }

  lemma VerdictKeeps(s: State)
    requires Inv(s)
    requires s.worker.EncVerdict?
    ensures Inv(Verdict(s))
  {
    hide LinkedTo, EventRight;
  }

  lemma TakeWriteKeeps(s: State, w: Work, action: Option<Action>)
    requires Inv(s)
    requires s.worker.Idle? && w in s.queued
    ensures Inv(TakeWrite(s, w, action))
  {
    hide LinkedTo;
  }

  lemma StoreReturnsKeeps(s: State)
    requires Inv(s)
    requires s.worker.RxStore?
    ensures Inv(StoreReturns(s))
  {
    hide LinkedTo, EventRight;
  }

  lemma SecondGuardKeeps(s: State)
    requires Inv(s)
    requires s.worker.RxGuard?
    ensures Inv(SecondGuard(s))
  {
    hide LinkedTo;
  }

  lemma CompleteKeeps(s: State)
    requires Inv(s)
    requires s.worker.RxComplete?
    ensures Inv(s.(worker := Idle))
  {
    hide LinkedTo, EventRight;
  }

  lemma TakeDisconnectKeeps(s: State)
    requires Inv(s)
    requires s.worker.Idle?
    ensures Inv(TakeDisconnect(s))
  {
    hide LinkedTo, EventRight;
  }

  lemma TakeTickKeeps(s: State, late: bool)
    requires Inv(s)
    requires s.worker.Idle?
    ensures Inv(TakeTick(s, late))
  {
    hide LinkedTo, EventRight;
  }

  lemma TakeResetKeeps(s: State, w: Work)
    requires Inv(s)
    requires s.worker.Idle? && w in s.queued
    ensures Inv(TakeReset(s, w))
  {
    hide LinkedTo, EventRight;
  }

  lemma MarkResetKeeps(s: State)
    requires Inv(s)
    requires s.worker.Marking?
    ensures Inv(MarkReset(s))
  {
    hide LinkedTo, EventRight;
  }

  lemma EraseKeeps(s: State)
    requires Inv(s)
    requires s.worker.Finishing?
    ensures Inv(s.(ble := s.ble.(record := None), worker := Finishing(true)))
  {
    hide LinkedTo, EventRight;
  }

  lemma FinishKeeps(s: State, ok: bool)
    requires Inv(s)
    requires s.worker.Finishing?
    ensures Inv(s.(ble := ResetFinished(s.ble, ok), worker := Idle))
  {
    hide LinkedTo, EventRight;
  }

  lemma PressOpenKeeps(s: State, fits: bool)
    requires Inv(s)
    requires s.button.ButtonIdle?
    ensures Inv(PressOpen(s, fits))
  {
    hide LinkedTo, EventRight;
  }

  lemma PressCloseKeeps(s: State)
    requires Inv(s)
    requires s.button.ButtonIdle?
    ensures Inv(PressClose(s))
  {
    hide EventRight;
  }

  lemma PressConfirmKeeps(s: State, accept: bool)
    requires Inv(s)
    requires s.button.ButtonIdle?
    ensures Inv(PressConfirm(s, accept))
  {
    hide LinkedTo, EventRight;
  }

  lemma PressResetKeeps(s: State)
    requires Inv(s)
    requires s.button.ButtonIdle?
    ensures Inv(PressReset(s))
  {
    hide EventRight;
  }

  lemma ButtonAsksKeeps(s: State)
    requires Inv(s)
    requires s.button.CloseAsks? || s.button.ResetAsks?
    ensures Inv(ButtonAsks(s))
  {
    hide RequestTermination;
    hide LinkedTo, EventRight, Encrypting, SecureForOwner, Recorded, Quiet, Items;
    RequestKeeps(s, s.button.target);
    var m := s.(ble := RequestTermination(s.ble, s.button.target));
    if s.button.CloseAsks? {
      CloseAsked(m);
    } else {
      ResetAsked(m);
    }
  }

  lemma ResetQueuedKeeps(s: State, fits: bool)
    requires Inv(s)
    requires s.button.ResetQueues?
    ensures Inv(ResetQueued(s, fits))
  {
    hide LinkedTo, EventRight;
  }

  lemma ButtonEraseKeeps(s: State)
    requires Inv(s)
    requires s.button.ButtonFinishing?
    ensures Inv(s.(ble := s.ble.(record := None), button := ButtonFinishing(true)))
  {
    hide LinkedTo, EventRight;
  }

  lemma ButtonFinishKeeps(s: State, ok: bool)
    requires Inv(s)
    requires s.button.ButtonFinishing?
    ensures Inv(s.(ble := ResetFinished(s.ble, ok), button := ButtonIdle))
  {
    hide LinkedTo, EventRight;
  }

  lemma TakeKeeps(s: State, w: Work, passkey: nat, action: Option<Action>, late: bool)
    requires Inv(s) && s.worker.Idle? && w in s.queued
    ensures Inv(Take(s, w, passkey, action, late))
  {
    hide Inv, TakeOpen, TakeClose, TakeConnect, TakePasskey, TakeConfirm, TakeEncryption, TakeWrite, TakeReset,
      TakeDisconnect, TakeTick;
    match w.kind
    case Open => TakeOpenKeeps(s, w);
    case Close => TakeCloseKeeps(s, w);
    case Connect => TakeConnectKeeps(s, w);
    case Passkey => TakePasskeyKeeps(s, w, passkey);
    case Confirm(_, _) => TakeConfirmKeeps(s, w);
    case Encryption(_) => TakeEncryptionKeeps(s, w);
    case Rx => TakeWriteKeeps(s, w, action);
    case ResetOwner => TakeResetKeeps(s, w);
    case Disconnect => TakeDisconnectKeeps(s);
    case Tick => TakeTickKeeps(s, late);
  }

  lemma HostKeeps(s: State, e: Step)
    requires Inv(s) && HostEnabled(s, e)
    ensures Inv(HostStep(s, e))
  {
    hide Inv, Settled, LinkUp, ConnectCallback, LinkLost, DisconnectCallback, ResetCallback, LinkChanges,
      EncryptionChanged, PasskeyShown, Write, Control;
    match e
    case DoLinkUp(h, link) => LinkUpKeeps(s, h, link);
    case DoConnect => ConnectKeeps(s);
    case DoLinkLost(h) => LinkLostKeeps(s, h);
    case DoDisconnect => DisconnectKeeps(s);
    case DoAllLost => AllLostKeeps(s);
    case DoHostReset => HostResetKeeps(s);
    case DoLinkChange(h, link) => LinkChangesKeeps(s, h, link);
    case DoEncryption(h, ok) => EncryptionChangedKeeps(s, h, ok);
    case DoPasskey(h) => PasskeyShownKeeps(s, h);
    case DoWrite(h) => WriteKeeps(s, h);
    case DoControl => ControlKeeps(s);
  }

  lemma WorkerKeeps(s: State, e: Step)
    requires Inv(s) && WorkerEnabled(s, e)
    ensures Inv(WorkerStep(s, e))
  {
    hide Inv, Settled, Take, Recheck, CloseWindow, Ask, MarkReset, ResetFinished, ReadLink, CheckOwner, SaveOwner, AdoptOwner;
    hide UndoSave, Recover, FinishEncryption, Verdict, StoreReturns, SecondGuard;
    match e
    case DoTake(w, passkey, action, late) => TakeKeeps(s, w, passkey, action, late);
    case DoRecheck => RecheckKeeps(s);
    case DoCloseWindow => CloseWindowKeeps(s);
    case DoAsk => AskKeeps(s);
    case DoMark => MarkResetKeeps(s);
    case DoErase => EraseKeeps(s);
    case DoFinish(ok) => FinishKeeps(s, ok);
    case DoRead => ReadLinkKeeps(s);
    case DoCheck => CheckOwnerKeeps(s);
    case DoSave(ok, reached) => SaveOwnerKeeps(s, ok, reached);
    case DoAdopt => AdoptOwnerKeeps(s);
    case DoUndo(erased) => UndoSaveKeeps(s, erased);
    case DoRecover => RecoverKeeps(s);
    case DoFinishEncryption => FinishEncryptionKeeps(s);
    case DoVerdict => VerdictKeeps(s);
    case DoStoreReturns => StoreReturnsKeeps(s);
    case DoSecondGuard => SecondGuardKeeps(s);
    case DoComplete => CompleteKeeps(s);
  }

  lemma ButtonKeeps(s: State, e: Step)
    requires Inv(s) && ButtonEnabled(s, e)
    ensures Inv(ButtonStep(s, e))
  {
    hide Inv, Settled, PressOpen, PressClose, PressConfirm, PressReset, ButtonAsks, ResetQueued, ResetFinished;
    match e
    case DoPressOpen(fits) => PressOpenKeeps(s, fits);
    case DoPressClose => PressCloseKeeps(s);
    case DoPressConfirm(accept) => PressConfirmKeeps(s, accept);
    case DoPressReset => PressResetKeeps(s);
    case DoButtonAsks => ButtonAsksKeeps(s);
    case DoResetQueued(fits) => ResetQueuedKeeps(s, fits);
    case DoButtonErase => ButtonEraseKeeps(s);
    case DoButtonFinish(ok) => ButtonFinishKeeps(s, ok);
  }

  lemma InitialKeeps(s: State)
    requires Initial(s)
    ensures Inv(s)
  {
  }

  lemma {:induction false} RunKeeps(run: seq<State>, i: nat)
    requires Run(run) && i < |run|
    ensures Inv(run[i])
  {
    hide Inv, HostEnabled, WorkerEnabled, ButtonEnabled, HostStep, WorkerStep, ButtonStep, Initial;
    if i == 0 {
      InitialKeeps(run[0]);
    } else {
      RunKeeps(run, i - 1);
      var s := run[i - 1];
      assert Follows(s, run[i]);
      var e :| Enabled(s, e) && run[i] == Apply(s, e);
      if HostEnabled(s, e) {
        HostKeeps(s, e);
      } else if WorkerEnabled(s, e) {
        WorkerKeeps(s, e);
      } else {
        ButtonKeeps(s, e);
      }
    }
  }

  /**
   * In every state of every run a secure session is the owner's: connected under a live handle, on a link that
   * is encrypted, authenticated and bonded with the identity of the owner on record, here and in flash.
   */
  lemma SecureMeansOwner(run: seq<State>, i: nat)
    requires Run(run) && i < |run| && run[i].ble.secure
    ensures var s := run[i]; var b := s.ble;
            b.connected && b.conn != NONE && b.ownerPresent && !b.recovery && !b.resetting && b.record == Some(b.owner) &&
            b.instance in s.peers && s.peers[b.instance].identity == b.owner && RawSecure(s.peers[b.instance].security) &&
            (s.host.HostIdle? ==> b.conn in s.links && s.links[b.conn] == b.instance)
  {
    hide Run;
    RunKeeps(run, i);
  }

  /**
   * In every run a store action starts, and a commit passes its guard, only for an item of the current generation
   * that came over the owner's secure link; a termination, a cancellation or a passkey reaches only the link it was
   * meant for; and a passkey is released only while the window is open, after the holder accepted it for that link.
   */
  lemma EveryEffectIsRight(run: seq<State>, i: nat, k: nat)
    requires Run(run) && i < |run| && k < |run[i].log|
    ensures EventRight(run[i].log[k])
  {
    hide Run;
    RunKeeps(run, i);
    assert run[i].log[k] in run[i].log;
  }

  // ----- the rules leave room: an owner pairs and starts a transfer

  function Last(run: seq<State>): State
    requires |run| > 0
  {
    run[|run| - 1]
  }

  lemma Extend(run: seq<State>, e: Step) returns (longer: seq<State>)
    requires Run(run) && Enabled(Last(run), e)
    ensures |longer| > 0 && Run(longer) && longer[0] == run[0] && Last(longer) == Apply(Last(run), e)
  {
    hide Initial, Enabled, Apply;
    longer := run + [Apply(Last(run), e)];
    forall i | 0 < i < |longer| ensures Follows(longer[i - 1], longer[i]) {
      if i < |run| { assert Follows(run[i - 1], run[i]); } else { assert longer[i - 1] == Last(run) && longer[i] == Apply(Last(run), e); }
    }
  }

  lemma HostGoes(run: seq<State>, e: Step) returns (longer: seq<State>)
    requires Run(run) && HostEnabled(Last(run), e)
    ensures |longer| > 0 && Run(longer) && longer[0] == run[0] && Last(longer) == HostStep(Last(run), e)
  {
    hide Initial, HostStep, WorkerStep, ButtonStep;
    assert HostStep(Last(run), e) == Apply(Last(run), e);
    longer := Extend(run, e);
  }

  lemma WorkerGoes(run: seq<State>, e: Step) returns (longer: seq<State>)
    requires Run(run) && WorkerEnabled(Last(run), e)
    ensures |longer| > 0 && Run(longer) && longer[0] == run[0] && Last(longer) == WorkerStep(Last(run), e)
  {
    hide Initial, HostStep, WorkerStep, ButtonStep;
    assert WorkerStep(Last(run), e) == Apply(Last(run), e);
    longer := Extend(run, e);
  }

  lemma ButtonGoes(run: seq<State>, e: Step) returns (longer: seq<State>)
    requires Run(run) && ButtonEnabled(Last(run), e)
    ensures |longer| > 0 && Run(longer) && longer[0] == run[0] && Last(longer) == ButtonStep(Last(run), e)
  {
    hide Initial, HostStep, WorkerStep, ButtonStep;
    assert ButtonStep(Last(run), e) == Apply(Last(run), e);
    longer := Extend(run, e);
  }

  const BONDED := Link(7, Security(true, true, true, 16))
  const SESSION := Target(1, 1, 0)

  function Blank(stockMode: bool): State {
    State(Ble(stockMode, NONE, 0, 0, 0, false, false, false, false, 0, 0, false, false, false, false, 0, NO_TARGET, NO_TARGET, NO_TARGET, 0, None),
          map[], map[], 0, HostIdle, Idle, ButtonIdle, {}, [])
  }

  lemma BlankRun(stockMode: bool) returns (run: seq<State>)
    ensures Run(run) && Last(run) == Blank(stockMode)
  {
    run := [Blank(stockMode)];
  }

  lemma WindowOpens(stockMode: bool) returns (run: seq<State>)
    ensures Run(run)
    ensures Last(run) == Blank(stockMode).(ble := Blank(stockMode).ble.(control := 1, windowOpen := true), queued := {Work(Open, NO_TARGET, 1, 0)})
  {
    run := BlankRun(stockMode);
    hide Run, Initial;
    run := ButtonGoes(run, DoPressOpen(true));
    run := WorkerGoes(run, DoTake(Work(Open, NO_TARGET, 1, 0), 0, None, false));
  }

  lemma LinkOpens(stockMode: bool) returns (run: seq<State>)
    ensures Run(run) && Last(run).worker.Idle? && Last(run).host.HostIdle? && Last(run).log == []
    ensures var b := Last(run).ble; Matches(b, SESSION) && b.connected && b.windowOpen && !b.recovery && !b.ownerPresent
    ensures Last(run).links == map[1 := 0] && Last(run).peers == map[0 := BONDED]
  {
    run := WindowOpens(stockMode);
    hide Run;
    run := HostGoes(run, DoLinkUp(1, BONDED));
    run := HostGoes(run, DoConnect);
  }

  lemma EncryptionSeen(stockMode: bool) returns (run: seq<State>)
    ensures Run(run) && Last(run).worker == EncSave(Work(Encryption(true), SESSION, 0, 0), Seen(0, BONDED))
    ensures Last(run).host.HostIdle?
    ensures var b := Last(run).ble; Matches(b, SESSION) && b.connected && b.windowOpen && !b.recovery
    ensures Last(run).log == [] && 1 in Last(run).links && Last(run).links[1] == 0
  {
    run := LinkOpens(stockMode);
    hide Run;
    run := HostGoes(run, DoEncryption(1, true));
    run := WorkerGoes(run, DoTake(Work(Encryption(true), SESSION, 0, 0), 0, None, false));
    run := WorkerGoes(run, DoRead);
    run := WorkerGoes(run, DoCheck);
  }

  lemma OwnerAdopted(stockMode: bool) returns (run: seq<State>)
    ensures Run(run) && Last(run).worker == EncFinish(Work(Encryption(true), SESSION, 0, 0), true, Seen(0, BONDED), true)
    ensures var b := Last(run).ble; Matches(b, SESSION) && b.connected && b.windowOpen && !b.recovery
    ensures Last(run).log == [] && 1 in Last(run).links && Last(run).links[1] == 0 && Last(run).host.HostIdle?
  {
    run := EncryptionSeen(stockMode);
    hide Run;
    run := WorkerGoes(run, DoSave(true, true));
    run := WorkerGoes(run, DoAdopt);
  }

  lemma OwnerPairs(stockMode: bool) returns (run: seq<State>)
    ensures Run(run) && Last(run).worker.Idle? && Last(run).host.HostIdle? && Last(run).log == []
    ensures var b := Last(run).ble; Matches(b, SESSION) && b.secure && b.connected
    ensures 1 in Last(run).links && Last(run).links[1] == 0
  {
    run := OwnerAdopted(stockMode);
    hide Run;
    run := WorkerGoes(run, DoFinishEncryption);
    run := WorkerGoes(run, DoVerdict);
  }

  lemma OwnerStarts(stockMode: bool) returns (run: seq<State>)
    ensures Run(run) && |Last(run).log| == 1 && Last(run).log[0].StoreStarted? && Last(run).log[0].action == Begin
  {
    run := OwnerPairs(stockMode);
    hide Run;
    run := HostGoes(run, DoWrite(1));
    run := WorkerGoes(run, DoTake(Work(Rx, SESSION, 0, 0), 0, Some(Begin), false));
  }

  // ----- what the encryption of a known owner's link decides

  /** The link behind a handle, as the host reports it, is secure and belongs to this owner. */
  predicate OwnersLink(s: State, h: Handle, owner: Address) {
    h in s.links && s.links[h] in s.peers &&
    var link := s.peers[s.links[h]];
    link.identity == owner && link.security.encrypted && link.security.authenticated && link.security.bonded && link.security.keySize == 16
  }

  /**
   * An encryption report about the current connection, with an owner on record when he is looked for. The three sections of the
   * worker run in three states, whatever the other threads did in between. The session becomes secure if and only if success
   * was reported, the link was the owner's, and it is still the session's with the window open or the session already secure.
   */
  lemma EncryptionDecides(read: State, check: State, finish: State)
    requires read.worker.EncRead? && check.worker == ReadLink(read).worker
    requires if check.worker.EncCheck? then check.ble.ownerPresent && finish.worker == CheckOwner(check).worker
             else finish.worker == check.worker
    ensures finish.worker.EncFinish? && finish.worker.work == read.worker.work
    ensures var w, b := read.worker.work, finish.ble; var t := FinishEncryption(finish);
            Matches(b, w.target) ==>
              t.worker == EncVerdict(w) && !t.ble.pairing && !t.ble.released &&
              (t.ble.secure <==> w.kind == Encryption(true) && OwnersLink(read, w.target.handle, check.ble.owner) && !b.recovery &&
                                 b.connected && (b.windowOpen || b.secure))
  {
  }

  /** A session that did not become secure is asked to end: the very link the report named, if it is still current. */
  lemma UnsecuredIsTerminated(verdict: State, ask: State)
    requires verdict.worker.EncVerdict? && ask.worker == Verdict(verdict).worker
    ensures verdict.ble.secure ==> ask.worker.Idle?
    ensures !verdict.ble.secure ==>
              ask.worker.Asking? &&
              (Matches(ask.ble, verdict.worker.work.target) ==> Ask(ask).ble.terminate == verdict.worker.work.target && Ask(ask).worker.Idle?)
  {
  }

  /** And the host does end it: a request for the current connection hits its link, whatever else was asked for. */
  lemma TerminationIsServed(s: State)
    requires Matches(s.ble, s.ble.terminate) && s.ble.terminate.handle in s.links
    ensures Terminated(s.links[s.ble.terminate.handle], s.ble.terminate.link) in Control(s).log
    ensures Control(s).ble.terminate == NO_TARGET
  {
    var log := Control(s).log;
    assert log[|log| - 1] == Terminated(s.links[s.ble.terminate.handle], s.ble.terminate.link);
  }

  // ----- and the rules leave room for him to return

  const OWNER: Address := 7

  /** Start-up with an owner on record. */
  function Owned(stockMode: bool): State {
    var s := Blank(stockMode);
    s.(ble := s.ble.(ownerPresent := true, owner := OWNER, record := Some(OWNER)))
  }

  lemma OwnedOpens(stockMode: bool) returns (run: seq<State>)
    ensures Run(run) && run[0] == Owned(stockMode)
    ensures Last(run) == Owned(stockMode).(ble := Owned(stockMode).ble.(control := 1, windowOpen := true), queued := {Work(Open, NO_TARGET, 1, 0)})
  {
    run := OwnedStarts(stockMode);
    hide Run;
    run := ButtonGoes(run, DoPressOpen(true));
    run := WorkerGoes(run, DoTake(Work(Open, NO_TARGET, 1, 0), 0, None, false));
  }

  lemma OwnedStarts(stockMode: bool) returns (run: seq<State>)
    ensures run == [Owned(stockMode)] && Run(run)
  {
    run := [Owned(stockMode)];
  }

  /** The owner, or beside the legacy service anyone, is connected over this link and nothing else has happened. */
  predicate Joined(s: State, link: Link) {
    var b := s.ble;
    s.host.HostIdle? && s.log == [] && s.links == map[1 := 0] && s.peers == map[0 := link] && Here(b) == SESSION && b.connected &&
    !b.recovery && !b.resetting && b.ownerPresent && b.owner == OWNER && b.cancel == NO_TARGET && b.terminate == NO_TARGET
  }

  lemma OwnedConnects(stockMode: bool, link: Link) returns (run: seq<State>)
    requires stockMode || link.identity == OWNER
    ensures Run(run) && run[0] == Owned(stockMode) && Last(run).worker.Idle? && Joined(Last(run), link)
    ensures Last(run).ble.windowOpen && !Last(run).ble.secure && Last(run).button.ButtonIdle? && Last(run).ble.peer == link.identity
  {
    run := OwnedOpens(stockMode);
    hide Run;
    run := HostGoes(run, DoLinkUp(1, link));
    run := HostGoes(run, DoConnect);
  }

  const REPORT := Work(Encryption(true), SESSION, 0, 0)

  lemma ReportQueued(s: State, link: Link)
    requires Joined(s, link) && s.worker.Idle?
    ensures HostEnabled(s, DoEncryption(1, true))
    ensures HostStep(s, DoEncryption(1, true)) == s.(queued := s.queued + {REPORT})
  {
  }

  lemma ReportTaken(s: State, link: Link)
    requires Joined(s, link) && s.worker.Idle? && s.ble.windowOpen && REPORT in s.queued
    ensures var e := DoTake(REPORT, 0, None, false); WorkerEnabled(s, e) && WorkerStep(s, e) == s.(worker := EncRead(REPORT))
  {
  }

  /** Uninterrupted, the three sections decide by the link alone. */
  lemma ReportDecided(s: State, link: Link)
    requires Joined(s, link) && s.worker == EncRead(REPORT) && s.ble.windowOpen
    ensures WorkerEnabled(s, DoRead)
    ensures var t := WorkerStep(s, DoRead); t == s.(worker := EncCheck(REPORT, Seen(0, link))) && WorkerEnabled(t, DoCheck)
  {
  }

  lemma OwnerChecked(s: State, link: Link)
    requires Joined(s, link) && s.worker == EncCheck(REPORT, Seen(0, link)) && s.ble.windowOpen
    ensures WorkerEnabled(s, DoCheck)
    ensures var t := WorkerStep(s, DoCheck);
            t == s.(worker := EncFinish(REPORT, true, Seen(0, link), link.identity == OWNER)) && WorkerEnabled(t, DoFinishEncryption)
  {
  }

  lemma SessionDecided(s: State, link: Link)
    requires Joined(s, link) && s.worker == EncFinish(REPORT, true, Seen(0, link), link.identity == OWNER) && s.ble.windowOpen
    ensures WorkerEnabled(s, DoFinishEncryption)
    ensures var t := WorkerStep(s, DoFinishEncryption);
            t.worker == EncVerdict(REPORT) && Joined(t, link) && (t.ble.secure <==> link.identity == OWNER && RawSecure(link.security))
  {
  }

  lemma OwnedDecides(stockMode: bool, link: Link) returns (run: seq<State>)
    requires stockMode || link.identity == OWNER
    ensures Run(run) && run[0] == Owned(stockMode) && Last(run).worker == EncVerdict(REPORT) && Joined(Last(run), link)
    ensures Last(run).ble.secure <==> link.identity == OWNER && RawSecure(link.security)
  {
    run := OwnedConnects(stockMode, link);
    hide Run, HostEnabled, WorkerEnabled, HostStep, WorkerStep, Owned;
    ReportQueued(Last(run), link);
    run := HostGoes(run, DoEncryption(1, true));
    ReportTaken(Last(run), link);
    run := WorkerGoes(run, DoTake(REPORT, 0, None, false));
    ReportDecided(Last(run), link);
    run := WorkerGoes(run, DoRead);
    OwnerChecked(Last(run), link);
    run := WorkerGoes(run, DoCheck);
    SessionDecided(Last(run), link);
    run := WorkerGoes(run, DoFinishEncryption);
  }

  lemma OwnerWrites(s: State)
    requires Joined(s, BONDED) && s.worker == EncVerdict(REPORT) && s.ble.secure
    ensures WorkerEnabled(s, DoVerdict)
    ensures HostEnabled(WorkerStep(s, DoVerdict), DoWrite(1))
    ensures var u, e := HostStep(WorkerStep(s, DoVerdict), DoWrite(1)), DoTake(Work(Rx, SESSION, 0, 0), 0, Some(Begin), false);
            WorkerEnabled(u, e) && WorkerStep(u, e).log == [StoreStarted(Begin, e.work, u.ble, OWNER)]
  {
  }

  /** The owner reconnects over his bonded link and starts a transfer. */
  lemma OwnerReturns(stockMode: bool) returns (run: seq<State>)
    ensures Run(run) && run[0] == Owned(stockMode)
    ensures |Last(run).log| == 1 && Last(run).log[0].StoreStarted? && Last(run).log[0].identity == OWNER
  {
    run := OwnedDecides(stockMode, BONDED);
    hide Run, HostEnabled, WorkerEnabled, HostStep, WorkerStep, Owned;
    OwnerWrites(Last(run));
    run := WorkerGoes(run, DoVerdict);
    run := HostGoes(run, DoWrite(1));
    run := WorkerGoes(run, DoTake(Work(Rx, SESSION, 0, 0), 0, Some(Begin), false));
  }

  lemma StrangerAsked(s: State, link: Link)
    requires Joined(s, link) && s.worker == EncVerdict(REPORT) && !s.ble.secure
    ensures WorkerEnabled(s, DoVerdict)
    ensures WorkerEnabled(WorkerStep(s, DoVerdict), DoAsk)
    ensures var u := WorkerStep(WorkerStep(s, DoVerdict), DoAsk);
            HostEnabled(u, DoControl) && HostStep(u, DoControl).log == [Terminated(0, 0)] && !HostStep(u, DoControl).ble.secure
  {
  }

  /** A stranger beside the legacy service, or an owner whose link is not secure, is cut off. */
  lemma StrangerLeaves(stockMode: bool, link: Link) returns (run: seq<State>)
    requires (stockMode || link.identity == OWNER) && !(link.identity == OWNER && RawSecure(link.security))
    ensures Run(run) && run[0] == Owned(stockMode) && Last(run).log == [Terminated(0, 0)] && !Last(run).ble.secure
  {
    run := OwnedDecides(stockMode, link);
    hide Run, HostEnabled, WorkerEnabled, HostStep, WorkerStep, Owned;
    StrangerAsked(Last(run), link);
    run := WorkerGoes(run, DoVerdict);
    run := WorkerGoes(run, DoAsk);
    run := HostGoes(run, DoControl);
  }

  // ----- a passkey accepted by the holder is released, and a reset forgets the owner

  function PasskeyWork(): Work { Work(Passkey, SESSION, 0, 0) }

  function Accept(passkey: nat): Work { Work(Confirm(true, passkey), SESSION, 0, 0) }

  lemma PasskeyTaken(s: State, link: Link, passkey: nat)
    requires Joined(s, link) && s.worker.Idle? && s.ble.windowOpen && link.identity == OWNER == s.ble.peer
    ensures HostEnabled(s, DoPasskey(1))
    ensures WorkerEnabled(HostStep(s, DoPasskey(1)), DoTake(PasskeyWork(), passkey, None, false))
    ensures var u := WorkerStep(HostStep(s, DoPasskey(1)), DoTake(PasskeyWork(), passkey, None, false));
            Joined(u, link) && u.worker.Idle? && u.button == s.button && u.ble.windowOpen && u.ble.pairing && u.ble.passkey == passkey &&
            u.ble.peer == OWNER
  {
  }

  lemma AcceptanceTaken(s: State, link: Link, passkey: nat)
    requires Joined(s, link) && s.worker.Idle? && s.button.ButtonIdle? && s.ble.windowOpen && s.ble.pairing && s.ble.passkey == passkey
    requires s.ble.peer == OWNER
    ensures ButtonEnabled(s, DoPressConfirm(true))
    ensures WorkerEnabled(ButtonStep(s, DoPressConfirm(true)), DoTake(Accept(passkey), 0, None, false))
    ensures var u := WorkerStep(ButtonStep(s, DoPressConfirm(true)), DoTake(Accept(passkey), 0, None, false));
            HostEnabled(u, DoControl) && HostStep(u, DoControl).log == [Injected(0, 0, passkey, u.ble, true)]
  {
  }

  /** Any passkey shown to the returning owner and accepted with a button is released to his link. */
  lemma PasskeyReleased(stockMode: bool, link: Link, passkey: nat) returns (run: seq<State>)
    requires link.identity == OWNER
    ensures Run(run) && run[0] == Owned(stockMode)
    ensures |Last(run).log| == 1 && Last(run).log[0].Injected? && Last(run).log[0].hit == 0 && Last(run).log[0].passkey == passkey
  {
    run := OwnedConnects(stockMode, link);
    hide Run, HostEnabled, WorkerEnabled, ButtonEnabled, HostStep, WorkerStep, ButtonStep, Owned;
    PasskeyTaken(Last(run), link, passkey);
    run := HostGoes(run, DoPasskey(1));
    run := WorkerGoes(run, DoTake(PasskeyWork(), passkey, None, false));
    AcceptanceTaken(Last(run), link, passkey);
    run := ButtonGoes(run, DoPressConfirm(true));
    run := WorkerGoes(run, DoTake(Accept(passkey), 0, None, false));
    run := HostGoes(run, DoControl);
  }

  const RESET := Work(ResetOwner, Target(NONE, 1, 0), 1, 0)

  /** Nothing is connected, and a reset is under way. */
  predicate Resetting(s: State) {
    var b := s.ble;
    b.resetting && b.conn == NONE && b.control == 1 && !b.connected && !b.recovery && !b.windowOpen
  }

  lemma ResetPressed(s: State, stockMode: bool)
    requires s == Owned(stockMode)
    ensures ButtonEnabled(s, DoPressReset)
    ensures var t := ButtonStep(s, DoPressReset); Resetting(t) && t.worker.Idle? && t.button == ResetAsks(RESET.target, RESET)
  {
  }

  lemma ResetQueuedUp(s: State)
    requires Resetting(s)
    ensures s.button == ResetAsks(RESET.target, RESET) ==>
              ButtonEnabled(s, DoButtonAsks) && ButtonStep(s, DoButtonAsks) == s.(button := ResetQueues(RESET))
    ensures s.button == ResetQueues(RESET) ==>
              ButtonEnabled(s, DoResetQueued(true)) &&
              ButtonStep(s, DoResetQueued(true)) == s.(button := ButtonIdle, queued := s.queued + {RESET})
  {
  }

  lemma ResetServed(s: State)
    requires Resetting(s)
    ensures var e := DoTake(RESET, 0, None, false);
            s.worker.Idle? && RESET in s.queued ==> WorkerEnabled(s, e) && WorkerStep(s, e) == s.(worker := Closing(Mark(RESET)))
    ensures s.worker == Closing(Mark(RESET)) ==> WorkerEnabled(s, DoCloseWindow) && WorkerStep(s, DoCloseWindow) == s.(worker := Marking(RESET))
    ensures s.worker == Marking(RESET) ==> WorkerEnabled(s, DoMark) && WorkerStep(s, DoMark) == s.(worker := Finishing(false))
    ensures s.worker == Finishing(false) ==>
              WorkerEnabled(s, DoErase) && WorkerStep(s, DoErase) == s.(worker := Finishing(true), ble := s.ble.(record := None))
    ensures s.worker == Finishing(true) ==>
              WorkerEnabled(s, DoFinish(true)) &&
              WorkerStep(s, DoFinish(true)) == s.(worker := Idle, ble := s.ble.(owner := 0, ownerPresent := false, resetting := false))
  {
  }

  /** A reset that meets no failure forgets the owner, here and in flash. */
  lemma OwnerForgotten(stockMode: bool) returns (run: seq<State>)
    ensures Run(run) && run[0] == Owned(stockMode) && Last(run).worker.Idle?
    ensures !Last(run).ble.ownerPresent && Last(run).ble.record.None? && !Last(run).ble.resetting && !Last(run).ble.recovery
  {
    run := OwnedStarts(stockMode);
    hide Run, HostEnabled, WorkerEnabled, ButtonEnabled, HostStep, WorkerStep, ButtonStep, Owned;
    ResetPressed(Last(run), stockMode);
    run := ButtonGoes(run, DoPressReset);
    ResetQueuedUp(Last(run));
    run := ButtonGoes(run, DoButtonAsks);
    ResetQueuedUp(Last(run));
    run := ButtonGoes(run, DoResetQueued(true));
    ResetServed(Last(run));
    run := WorkerGoes(run, DoTake(RESET, 0, None, false));
    ResetServed(Last(run));
    run := WorkerGoes(run, DoCloseWindow);
    ResetServed(Last(run));
    run := WorkerGoes(run, DoMark);
    ResetServed(Last(run));
    run := WorkerGoes(run, DoErase);
    ResetServed(Last(run));
    run := WorkerGoes(run, DoFinish(true));
  }
}
