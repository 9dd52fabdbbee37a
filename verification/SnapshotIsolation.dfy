/**
 * Page reads while a transfer is under way. A reader holds the store's lock for its whole page loop; the worker
 * erases, validates, saves and marks the other bank without the lock. Each step is one flash call or one locked
 * section, and the two threads interleave freely. While a flash call on a bank is under way, that bank may hold anything.
 */
module SnapshotIsolation {
  import opened Bytes
  import opened WalletCore
  import opened WalletBanks
  import opened WalletStore

  datatype Request = Request(expected: Option<u32>, kind: nat, ordinal: nat, metadata: seq<byte>, image: seq<byte>)

  /** seen is what was active when the reader took the lock. */
  datatype Reader =
    | Away
    | Waiting(q: Request)
    | Scanning(q: Request, seen: Selection, page: nat, left: nat)
    | Copying(q: Request, seen: Selection, page: nat, metadata: seq<byte>)
    | Answered(q: Request, seen: Selection, result: StoreResult, metadata: seq<byte>, image: seq<byte>)

  datatype Worker =
    | Resting
    | Erasing(bank: nat)
    | Opening(bank: nat)
    | Checking(bank: nat)
    | Saving(bank: nat)
    | Marking(bank: nat)
    | Publishing(bank: nat, snapshot: Snapshot)
    | Failing

  datatype State = State(d: Durable, active: Selection, activeBank: int, activeInfo: Info, staging: bool, stagingBank: nat,
                         worker: Worker, reader: Reader)

  predicate Locked(s: State) { s.reader.Scanning? || s.reader.Copying? }

  function Answer(s: State, q: Request, seen: Selection, result: StoreResult, metadata: seq<byte>, image: seq<byte>): State {
    s.(reader := Answered(q, seen, result, metadata, image))
  }

  // ----- the reader

  function Ask(s: State, q: Request): State {
    if q.kind >= KIND_COUNT then Answer(s, q, Nothing, InvalidArg, q.metadata, q.image) else s.(reader := Waiting(q))
  }

  function TakeLock(s: State): State
    requires s.reader.Waiting?
  {
    var q := s.reader.q;
    if q.expected.Some? && q.expected.value != s.activeInfo.revision then Answer(s, q, s.active, StaleSnapshot, q.metadata, q.image)
    else if s.activeBank < 0 then Answer(s, q, s.active, NotFound, q.metadata, q.image)
    else s.(reader := Scanning(q, s.active, 0, q.ordinal))
  }

  function ActiveCells(s: State): Bank { if s.activeBank == 1 then s.d.second else s.d.first }

  function ReadHead(s: State, ok: bool): State
    requires s.reader.Scanning?
  {
    var r, cells := s.reader, ActiveCells(s);
    if r.page >= s.activeInfo.header.pageCount then Answer(s, r.q, r.seen, NotFound, r.q.metadata, r.q.image)
    else if !ok || |cells| < PageOffset(r.page + 1) then Answer(s, r.q, r.seen, IoError, r.q.metadata, r.q.image)
    else
      var metadata := cells[PageOffset(r.page)..PageOffset(r.page) + 4];
      if metadata[0] != r.q.kind then s.(reader := Scanning(r.q, r.seen, r.page + 1, r.left))
      else if r.left != 0 then s.(reader := Scanning(r.q, r.seen, r.page + 1, r.left - 1))
      else s.(reader := Copying(r.q, r.seen, r.page, metadata))
  }

  /** A failed image read may leave anything in the caller's image buffer. */
  function ReadImage(s: State, ok: bool, garbage: seq<byte>): State
    requires s.reader.Copying?
  {
    var r, cells := s.reader, ActiveCells(s);
    if !ok || |cells| < PageOffset(r.page + 1) then Answer(s, r.q, r.seen, IoError, r.q.metadata, garbage)
    else Answer(s, r.q, r.seen, Ok, r.metadata, cells[PageOffset(r.page) + 4..PageOffset(r.page) + PAGE_RECORD_SIZE])
  }

  // ----- the worker

  function Begin(s: State): State { s.(staging := false, worker := Erasing(if s.activeBank == 0 then 1 else 0)) }

  function Disturb(s: State, bank: nat, cells: Bank): State
    requires bank < 2
  {
    s.(d := s.d.With(bank, cells))
  }

  function Open(s: State): State
    requires s.worker.Opening?
  {
    s.(staging := true, stagingBank := s.worker.bank, worker := Resting)
  }

  function Publish(s: State): State
    requires s.worker.Publishing?
  {
    s.(activeBank := s.worker.bank, activeInfo := s.worker.snapshot.info, active := Selected(s.worker.bank, s.worker.snapshot),
       staging := false, worker := Resting)
  }

  datatype Step =
    | DoAsk(q: Request) | DoLock | DoHead(ok: bool) | DoImage(ok: bool, garbage: seq<byte>) | DoLeave
    | DoBegin | DoFlash(cells: Bank) | DoErased(ok: bool) | DoOpen | DoWrite(cells: Bank) | DoCommit | DoChecked(ok: bool)
    | DoSaved(ok: bool, saved: Option<nat>) | DoMarked(ok: bool, snapshot: Snapshot) | DoPublish | DoFail | DoAbort

  /** The marker write that succeeds leaves a bank that commits the snapshot to be published. */
  predicate Enabled(s: State, e: Step) {
    match e
    case DoAsk(_) => s.reader.Away?
    case DoLock => s.reader.Waiting?
    case DoHead(_) => s.reader.Scanning?
    case DoImage(_, _) => s.reader.Copying?
    case DoLeave => s.reader.Answered?
    case DoBegin => s.worker.Resting? && !Locked(s)
    case DoFlash(_) => s.worker.Erasing? || s.worker.Marking?
    case DoErased(_) => s.worker.Erasing?
    case DoOpen => s.worker.Opening? && !Locked(s)
    case DoWrite(_) => s.worker.Resting? && !Locked(s) && s.staging
    case DoCommit => s.worker.Resting? && !Locked(s) && s.staging
    case DoChecked(_) => s.worker.Checking?
    case DoSaved(_, _) => s.worker.Saving?
    case DoMarked(ok, snapshot) =>
      s.worker.Marking? && (ok ==> s.worker.bank < 2 && s.d.Holds(s.worker.bank) == Some(snapshot))
    case DoPublish => s.worker.Publishing? && !Locked(s)
    case DoFail => s.worker.Failing? && !Locked(s)
    case DoAbort => !Locked(s)
  }

  function Apply(s: State, e: Step): State
    requires Enabled(s, e)
  {
    match e
    case DoAsk(q) => Ask(s, q)
    case DoLock => TakeLock(s)
    case DoHead(ok) => ReadHead(s, ok)
    case DoImage(ok, garbage) => ReadImage(s, ok, garbage)
    case DoLeave => s.(reader := Away)
    case DoBegin => Begin(s)
    case DoFlash(cells) => if s.worker.bank < 2 then Disturb(s, s.worker.bank, cells) else s
    case DoErased(ok) => s.(worker := if ok then Opening(s.worker.bank) else Resting)
    case DoOpen => Open(s)
    case DoWrite(cells) => if s.stagingBank < 2 then Disturb(s, s.stagingBank, cells) else s
    case DoCommit => s.(worker := Checking(s.stagingBank))
    case DoChecked(ok) => s.(worker := if ok then Saving(s.worker.bank) else Failing)
    case DoSaved(ok, saved) => s.(d := s.d.(saved := saved), worker := if ok then Marking(s.worker.bank) else Failing)
    case DoMarked(ok, snapshot) => s.(worker := if ok then Publishing(s.worker.bank, snapshot) else Failing)
    case DoPublish => Publish(s)
    case DoFail => s.(staging := false, worker := Resting)
    case DoAbort => s.(staging := false)
  }

  // ----- what every step keeps

  /** Whatever the worker is doing, it does to the bank that is not active. */
  predicate WorkerOk(d: Durable, active: Selection, worker: Worker) {
    (active.Selected? ==> active.bank < 2) &&
    match worker
    case Resting => true
    case Failing => true
    case Publishing(bank, snapshot) => bank == Spare(active) && d.Holds(bank) == Some(snapshot)
    case _ => worker.bank == Spare(active)
  }

  predicate InScan(active: Selection, q: Request, seen: Selection) {
    seen == active && seen.Selected? && q.kind < KIND_COUNT && Agrees(q, seen) && Shaped(seen.snapshot)
  }

  ghost predicate ReaderOk(active: Selection, reader: Reader) {
    match reader
    case Scanning(q, seen, page, left) =>
      InScan(active, q, seen) && page <= seen.snapshot.info.header.pageCount &&
      CountKind(seen.snapshot.package, page, q.kind) + left == q.ordinal
    case Copying(q, seen, page, metadata) =>
      InScan(active, q, seen) && IsNth(seen.snapshot.package, seen.snapshot.info.header.pageCount, q.kind, q.ordinal, page) &&
      metadata == seen.snapshot.package[PageOffset(page)..PageOffset(page) + 4]
    case Waiting(q) => q.kind < KIND_COUNT
    case Answered(q, seen, result, metadata, image) => Isolated(q, seen, result, metadata, image)
    case Away => true
  }

  predicate Agrees(q: Request, seen: Selection) {
    q.expected.Some? ==> q.expected.value == if seen.Selected? then seen.snapshot.info.revision else 0
  }

  predicate Shaped(s: Snapshot) {
    |s.package| == PageOffset(s.info.header.pageCount) && |s.info.counts| == KIND_COUNT &&
    s.info.counts == KindCounts(s.package, s.info.header.pageCount)
  }

  /** The answer is the ordinal-th page of the kind in the snapshot that was active when the lock was taken, when the
      caller expects that revision and there is such a page. */
  ghost predicate Isolated(q: Request, seen: Selection, result: StoreResult, metadata: seq<byte>, image: seq<byte>) {
    (result == InvalidArg <==> q.kind >= KIND_COUNT) &&
    (q.kind < KIND_COUNT ==>
      (result == StaleSnapshot <==> !Agrees(q, seen)) &&
      (result == StaleSnapshot || result == NotFound || result == Ok || result == IoError) &&
      (result == Ok ==> seen.Selected? && |seen.snapshot.info.counts| == KIND_COUNT && q.ordinal < seen.snapshot.info.counts[q.kind] &&
                        PageAt(seen.snapshot, q.kind, q.ordinal, metadata, image)) &&
      (result == NotFound && seen.Selected? ==>
        |seen.snapshot.info.counts| == KIND_COUNT && q.ordinal >= seen.snapshot.info.counts[q.kind])) &&
    (result != Ok ==> metadata == q.metadata && (result != IoError ==> image == q.image))
  }

  ghost predicate Inv(s: State) {
    ActiveOk(s.d, s.active, s.activeBank, s.activeInfo) && (s.staging ==> s.stagingBank == Spare(s.active)) &&
    WorkerOk(s.d, s.active, s.worker) && ReaderOk(s.active, s.reader)
  }

  lemma SpareApart(s: State)
    requires Inv(s)
    ensures s.active.Selected? ==> s.active.bank < 2 && Spare(s.active) != s.active.bank && s.activeBank == s.active.bank
    ensures s.staging ==> s.stagingBank != s.activeBank
  {
    hide Committed, ReaderOk, WorkerOk;
  }

  /** What the reader holds on to is what the active bank holds. */
  lemma ActiveShaped(s: State)
    requires Inv(s) && s.active.Selected?
    ensures Shaped(s.active.snapshot) && s.active.snapshot.info == s.activeInfo && s.active.snapshot.package <= ActiveCells(s)
  {
    hide ReaderOk, WorkerOk;
    SnapshotShape(s.d.At(s.active.bank), s.active.bank);
  }

  lemma LockKeeps(s: State)
    requires Inv(s) && s.reader.Waiting?
    ensures Inv(TakeLock(s))
  {
    hide Committed, PageAt, CountKind;
    SpareApart(s);
    if s.active.Selected? {
      ActiveShaped(s);
      NoneBefore(s.active.snapshot.package, s.reader.q.kind);
    }
  }

  lemma NoneBefore(p: seq<byte>, kind: nat)
    requires HoldsPages(p, 0)
    ensures CountKind(p, 0, kind) == 0
  {
  }

  /** One metadata read of the loop, on the package the reader holds on to. */
  lemma HeadMoves(q: Request, seen: Selection, page: nat, left: nat)
    requires InScan(seen, q, seen) && page <= seen.snapshot.info.header.pageCount
    requires CountKind(seen.snapshot.package, page, q.kind) + left == q.ordinal
    ensures var s, n := seen.snapshot, seen.snapshot.info.header.pageCount;
            if page == n then Isolated(q, seen, NotFound, q.metadata, q.image)
            else
              Isolated(q, seen, IoError, q.metadata, q.image) && PageOffset(page + 1) <= |s.package| &&
              if PageKind(s.package, page) != q.kind then ReaderOk(seen, Scanning(q, seen, page + 1, left))
              else if left != 0 then ReaderOk(seen, Scanning(q, seen, page + 1, left - 1))
              else ReaderOk(seen, Copying(q, seen, page, s.package[PageOffset(page)..PageOffset(page) + 4]))
  {
    hide PageAt;
    if page < seen.snapshot.info.header.pageCount {
      CountWithin(seen.snapshot.package, page + 1, seen.snapshot.info.header.pageCount, q.kind);
    }
  }

  lemma SliceOf(p: seq<byte>, cells: seq<byte>, from: nat, to: nat)
    requires p <= cells && from <= to <= |p|
    ensures cells[from..to] == p[from..to]
  {
  }

  lemma HeadKeeps(s: State, ok: bool)
    requires Inv(s) && s.reader.Scanning?
    ensures Inv(ReadHead(s, ok))
  {
    hide Committed, PageAt, CountKind, ActiveOk, WorkerOk, Isolated, IsNth;
    ActiveShaped(s);
    var r, p := s.reader, s.active.snapshot.package;
    HeadMoves(r.q, r.seen, r.page, r.left);
    if r.page < s.activeInfo.header.pageCount && ok {
      SliceOf(p, ActiveCells(s), PageOffset(r.page), PageOffset(r.page) + 4);
      assert ActiveCells(s)[PageOffset(r.page)..PageOffset(r.page) + 4][0] == p[PageOffset(r.page)];
    }
  }

  lemma ImageAnswers(q: Request, seen: Selection, page: nat, metadata: seq<byte>, garbage: seq<byte>)
    requires ReaderOk(seen, Copying(q, seen, page, metadata))
    ensures Isolated(q, seen, IoError, q.metadata, garbage) && PageOffset(page + 1) <= |seen.snapshot.package|
    ensures Isolated(q, seen, Ok, metadata, seen.snapshot.package[PageOffset(page) + 4..PageOffset(page) + PAGE_RECORD_SIZE])
  {
    var s := seen.snapshot;
    CountWithin(s.package, page + 1, s.info.header.pageCount, q.kind);
  }

  lemma ImageKeeps(s: State, ok: bool, garbage: seq<byte>)
    requires Inv(s) && s.reader.Copying?
    ensures Inv(ReadImage(s, ok, garbage))
  {
    hide Committed, PageAt, CountKind, ActiveOk, WorkerOk, Isolated, IsNth;
    ActiveShaped(s);
    var r, p := s.reader, s.active.snapshot.package;
    ImageAnswers(r.q, r.seen, r.page, r.metadata, garbage);
    SliceOf(p, ActiveCells(s), PageOffset(r.page) + 4, PageOffset(r.page) + PAGE_RECORD_SIZE);
  }

  /** A flash call on the other bank, in whatever state it leaves that bank. */
  lemma DisturbKeeps(s: State, bank: nat, cells: Bank)
    requires Inv(s) && bank == Spare(s.active) && !s.worker.Publishing?
    ensures Inv(Disturb(s, bank, cells))
  {
    hide Committed, ReaderOk;
  }

  /** A reader that does not hold the lock does not depend on what is active. */
  lemma ReaderElsewhere(active: Selection, other: Selection, reader: Reader)
    requires ReaderOk(active, reader) && !reader.Scanning? && !reader.Copying?
    ensures ReaderOk(other, reader)
  {
    hide Isolated;
  }

  lemma WorkerKeeps(s: State, e: Step)
    requires Inv(s) && Enabled(s, e)
    requires !e.DoLock? && !e.DoHead? && !e.DoImage? && !e.DoAsk? && !e.DoLeave? && !e.DoFlash? && !e.DoWrite?
    ensures Inv(Apply(s, e))
  {
    hide Committed, ReaderOk;
    if e.DoPublish? { ReaderElsewhere(s.active, Apply(s, e).active, s.reader); }
  }

  lemma AskKeeps(s: State, q: Request)
    requires Inv(s) && s.reader.Away?
    ensures Inv(Ask(s, q))
  {
    hide Committed, ActiveOk, WorkerOk, PageAt;
  }

  lemma LeaveKeeps(s: State)
    requires Inv(s)
    ensures Inv(s.(reader := Away))
  {
    hide Committed, ActiveOk, WorkerOk;
  }

  lemma WritesElsewhere(s: State)
    requires Inv(s)
    ensures s.active.Selected? ==> s.active.bank < 2
    ensures s.worker.Erasing? || s.worker.Marking? ==> s.worker.bank == Spare(s.active)
    ensures s.staging ==> s.stagingBank == Spare(s.active)
  {
    hide Committed, ReaderOk, ActiveOk;
  }

  lemma StepKeeps(s: State, e: Step)
    requires Inv(s) && Enabled(s, e)
    ensures Inv(Apply(s, e))
  {
    hide Inv, TakeLock, ReadHead, ReadImage, Ask, Disturb, Begin, Open, Publish;
    WritesElsewhere(s);
    match e
    case DoLock => LockKeeps(s);
    case DoHead(ok) => HeadKeeps(s, ok);
    case DoImage(ok, garbage) => ImageKeeps(s, ok, garbage);
    case DoAsk(q) => AskKeeps(s, q);
    case DoLeave => LeaveKeeps(s);
    case DoFlash(cells) => DisturbKeeps(s, s.worker.bank, cells);
    case DoWrite(cells) => DisturbKeeps(s, s.stagingBank, cells);
    case _ => WorkerKeeps(s, e);
  }

  predicate Possible(s: State, steps: seq<Step>)
    decreases |steps|
  {
    steps == [] || (Enabled(s, steps[0]) && Possible(Apply(s, steps[0]), steps[1..]))
  }

  function After(s: State, steps: seq<Step>): State
    requires Possible(s, steps)
    decreases |steps|
  {
    if steps == [] then s else After(Apply(s, steps[0]), steps[1..])
  }

  /** After a boot: no transfer, no reader. */
  predicate Booted(s: State) {
    ActiveOk(s.d, s.active, s.activeBank, s.activeInfo) && !s.staging && s.worker.Resting? && s.reader.Away?
  }

  /** That is what a store is after its boot. */
  lemma StoreBooted(store: Store)
    requires store.Valid() && !store.staging
    ensures Booted(State(store.backend.State(), store.active, store.activeBank, store.activeInfo, false, store.stagingBank, Resting, Away))
  {
    hide ActiveOk, StagingOk;
  }

  lemma BootedInv(s: State)
    requires Booted(s)
    ensures Inv(s)
  {
    hide Committed;
  }

  /** After any interleaving from a boot on: a finished read is isolated, and a staging is never opened on the active bank. */
  lemma ReadsAreIsolated(s: State, steps: seq<Step>)
    requires Booted(s) && Possible(s, steps)
    ensures var t := After(s, steps);
            Inv(t) && (t.staging ==> t.stagingBank != t.activeBank) &&
            (t.reader.Answered? ==> Isolated(t.reader.q, t.reader.seen, t.reader.result, t.reader.metadata, t.reader.image))
  {
    hide Inv, Apply, Enabled, Isolated;
    BootedInv(s);
    RunIsolated(s, steps);
  }

  lemma {:induction false} RunIsolated(s: State, steps: seq<Step>)
    requires Inv(s) && Possible(s, steps)
    ensures var t := After(s, steps);
            Inv(t) && (t.staging ==> t.stagingBank != t.activeBank) &&
            (t.reader.Answered? ==> Isolated(t.reader.q, t.reader.seen, t.reader.result, t.reader.metadata, t.reader.image))
    decreases |steps|
  {
    hide Inv, Apply, Enabled;
    if steps == [] {
      SpareApart(s);
      if s.reader.Answered? { AnswerIsolated(s); }
    } else {
      StepKeeps(s, steps[0]);
      RunIsolated(Apply(s, steps[0]), steps[1..]);
    }
  }

  lemma AnswerIsolated(s: State)
    requires Inv(s) && s.reader.Answered?
    ensures Isolated(s.reader.q, s.reader.seen, s.reader.result, s.reader.metadata, s.reader.image)
  {
    hide Committed, Isolated;
  }
}
