/**
 * The legacy service's transport: writes queue on the host task and are parsed by one polling worker; every
 * connect, disconnect and refused write opens a new session. Each step below is one critical section with the
 * worker-private or host-private work around it; steps of the two tasks interleave freely.
 */
module StockBle {
  import opened Bytes
  import opened StockProtocol

  const CONN_NONE := 0xffff
  const WRITE_MAX := 260
  const QUEUE_LENGTH := 8
  const TX_QUEUE_LENGTH := 4
  const IDLE_MS := 2000

  // ----- the ring buffers

  lemma Wrapped(i: nat, n: nat)
    requires n > 0 && i < 2 * n
    ensures i % n == if i < n then i else i - n
  {
    if i >= n { assert i == n + (i - n); }
  }

  class Ring<T(0)> {
    const slots: array<T>
    var head: nat
    var count: nat

    ghost predicate Valid()
      reads this
    {
      0 < slots.Length && head < slots.Length && count <= slots.Length
    }

    ghost function Contents(): (s: seq<T>)
      requires Valid()
      reads this, slots
      ensures |s| == count
    {
      if head + count <= slots.Length then slots[head..head + count] else slots[head..] + slots[..head + count - slots.Length]
    }

    constructor (length: nat)
      requires length > 0
      ensures Valid() && slots.Length == length && Contents() == [] && fresh(slots)
    {
      slots := new T[length];
      head, count := 0, 0;
    }

    method Push(x: T)
      requires Valid() && count < slots.Length
      modifies this, slots
      ensures Valid() && Contents() == old(Contents()) + [x]
    {
      Wrapped(head + count, slots.Length);
      slots[(head + count) % slots.Length] := x;
      count := count + 1;
    }

    method Pop() returns (x: T)
      requires Valid() && count > 0
      modifies this
      ensures Valid() && old(Contents()) == [x] + Contents()
    {
      Wrapped(head + 1, slots.Length);
      x := slots[head];
      head := (head + 1) % slots.Length;
      count := count - 1;
    }

    method Clear()
      requires Valid()
      modifies this
      ensures Valid() && Contents() == []
    {
      head, count := 0, 0;
    }
  }

  // ----- what the worker makes of one session's writes

  datatype Ingress = Ingress(received: nat, session: nat, bytes: seq<byte>)

  /** In the order the worker meets them: a refusal still to be reported, a write, a look at the clock that found the line quiet. */
  datatype Item = Opened(error: byte) | Took(write: Ingress) | Quiet(now: nat)

  datatype Output = Deliver(frame: Frame) | Status(code: byte)

  datatype Parser = Parser(buffer: seq<byte>, last: nat, outputs: seq<Output>)

  predicate IdleAt(p: Parser, now: nat) { p.buffer != [] && now >= p.last && now - p.last >= IDLE_MS }

  function ErrorOutput(r: FrameResult): seq<Output> {
    match r
    case FrameOk => []
    case TooLarge => [Status(0x15)]
    case BadHeader => [Status(0x10)]
  }

  function FrameOutput(f: Option<Frame>): seq<Output> { if f.Some? then [Deliver(f.value)] else [] }

  /** A write after two idle seconds abandons the partial frame before it; then one write is parsed. */
  function Consume(p: Parser, w: Ingress): Parser {
    var late := IdleAt(p, w.received);
    var fed := Feed(if late then [] else p.buffer, w.bytes);
    Parser(fed.buffer, w.received, p.outputs + (if late then [Status(0x11)] else []) + FrameOutput(fed.frame) + ErrorOutput(fed.result))
  }

  function Advance(p: Parser, item: Item): Parser {
    match item
    case Opened(error) => p.(outputs := p.outputs + [Status(error)])
    case Took(w) => Consume(p, w)
    case Quiet(now) => p.(buffer := [], outputs := p.outputs + [Status(0x11)])
  }

  function Parse(items: seq<Item>): Parser {
    if items == [] then Parser([], 0, []) else Advance(Parse(items[..|items| - 1]), items[|items| - 1])
  }

  function Writes(items: seq<Item>): seq<Ingress> {
    if items == [] then []
    else
      var last := items[|items| - 1];
      Writes(items[..|items| - 1]) + if last.Took? then [last.write] else []
  }

  function Frames(outputs: seq<Output>): seq<Frame> {
    if outputs == [] then []
    else
      var last := outputs[|outputs| - 1];
      Frames(outputs[..|outputs| - 1]) + if last.Deliver? then [last.frame] else []
  }

  /** A partial frame was given up at the end of a poll only after two idle seconds. */
  predicate QuietsHeld(items: seq<Item>) {
    items == [] ||
    (QuietsHeld(items[..|items| - 1]) &&
     var last := items[|items| - 1]; last.Quiet? ==> IdleAt(Parse(items[..|items| - 1]), last.now))
  }

  // ----- the shared state

  datatype Outgoing = Outgoing(session: nat, screenshot: bool, bytes: seq<byte>, link: nat)

  /** link counts connections, so that a reused handle can be told from the connection that had it before. */
  datatype Radio = Radio(connected: bool, connection: nat, link: nat, session: nat, blocked: bool, pendingError: byte,
                         statusOn: bool, screenshotOn: bool, queue: seq<Ingress>, outgoing: seq<Outgoing>)

  datatype Worker =
    | Resting
    | Looking(session: nat, now: nat, left: nat)
    | Taken(session: nat, now: nat, left: nat, write: Ingress)
    | Ready(session: nat, now: nat, left: nat, write: Ingress)
    | Delivering(session: nat, now: nat, left: nat, frame: Frame)
    | Closing(session: nat, now: nat)

  datatype Sent = Sent(out: Outgoing, link: nat, at: Radio)

  /** buffer and last are the worker's parser, for session parsing. The last four fields record the run. */
  datatype State = State(radio: Radio, worker: Worker, buffer: seq<byte>, last: nat, parsing: nat,
                         accepted: map<nat, seq<Ingress>>, items: map<nat, seq<Item>>, handed: map<nat, seq<Output>>, sent: seq<Sent>)

  function At<T>(m: map<nat, seq<T>>, s: nat): seq<T> { if s in m then m[s] else [] }

  function Append<T>(m: map<nat, seq<T>>, s: nat, x: seq<T>): map<nat, seq<T>> { m[s := At(m, s) + x] }

  lemma AppendAt<T>(m: map<nat, seq<T>>, s: nat, x: seq<T>)
    ensures forall k :: At(Append(m, s, x), k) == if k == s then At(m, s) + x else At(m, k)
  {
  }

  function NextSession(r: Radio): Radio { r.(session := r.session + 1, queue := [], outgoing := []) }

  function Reject(r: Radio, code: byte): Radio { NextSession(r).(blocked := true, pendingError := code) }

  predicate SessionCurrent(r: Radio, session: nat) { r.connected && r.session == session && !r.blocked }

  // ----- the host task

  function OnConnect(r: Radio, connection: nat): Radio {
    if !r.connected && connection != CONN_NONE then
      NextSession(r).(connected := true, connection := connection, link := r.link + 1, statusOn := false, screenshotOn := false,
                      blocked := false, pendingError := 0)
    else r
  }

  function OnDisconnect(r: Radio, connection: nat): Radio {
    if r.connected && r.connection == connection then
      NextSession(r).(connected := false, connection := CONN_NONE, statusOn := false, screenshotOn := false, blocked := false,
                      pendingError := 0)
    else r
  }

  function OnSubscribe(r: Radio, connection: nat, screenshot: bool, on: bool): Radio {
    if r.connected && r.connection == connection then (if screenshot then r.(screenshotOn := on) else r.(statusOn := on)) else r
  }

  predicate Accepts(r: Radio, connection: nat, bytes: seq<byte>) {
    r.connected && r.connection == connection && !r.blocked && |bytes| <= WRITE_MAX && |r.queue| != QUEUE_LENGTH
  }

  function OnWrite(s: State, connection: nat, received: nat, bytes: seq<byte>): State {
    var r := s.radio;
    if !r.connected || r.connection != connection then s
    else if r.blocked then s
    else if |bytes| > WRITE_MAX then s.(radio := Reject(r, 0x15))
    else if |r.queue| == QUEUE_LENGTH then s.(radio := Reject(r, 0x1b))
    else
      var w := Ingress(received, r.session, bytes);
      s.(radio := r.(queue := r.queue + [w]), accepted := Append(s.accepted, r.session, [w]))
  }

  /** One turn of the send event: the oldest notification leaves the queue, and goes out only if all of it still holds. */
  function SendNext(s: State, handle: nat, mtu: nat, memory: bool): State
    requires s.radio.outgoing != []
  {
    var r := s.radio;
    var out := r.outgoing[0];
    var allowed := r.connected && !r.blocked && r.session == out.session && (if out.screenshot then r.screenshotOn else r.statusOn);
    s.(radio := r.(outgoing := r.outgoing[1..]),
       sent := if allowed && handle != 0 && mtu >= 3 && |out.bytes| <= mtu - 3 && memory then s.sent + [Sent(out, r.link, r)] else s.sent)
  }

  // ----- the worker

  /** The second half of notify; asked stands for the subscription and MTU checks of the first. */
  function Notify(r: Radio, session: nat, screenshot: bool, bytes: seq<byte>, asked: bool): Radio {
    if asked && SessionCurrent(r, session) && |r.outgoing| < TX_QUEUE_LENGTH then
      r.(outgoing := r.outgoing + [Outgoing(session, screenshot, bytes, r.link)])
    else r
  }

  function StartPoll(s: State, now: nat): State {
    var r := s.radio;
    var error := r.pendingError;
    var t := s.(radio := r.(pendingError := 0, blocked := false), worker := Looking(r.session, now, QUEUE_LENGTH));
    var u := if r.session != s.parsing || error != 0 then t.(buffer := [], parsing := r.session, last := 0) else t;
    if error != 0 then
      u.(items := Append(s.items, r.session, [Opened(error)]), handed := Append(s.handed, r.session, [Status(error)]))
    else u
  }

  function TakeNext(s: State): State
    requires s.worker.Looking?
  {
    var r, p := s.radio, s.worker;
    if p.left > 0 && r.queue != [] && r.session == p.session && !r.blocked then
      s.(radio := r.(queue := r.queue[1..]), worker := Taken(p.session, p.now, p.left - 1, r.queue[0]))
    else s.(worker := Closing(p.session, p.now))
  }

  function Recheck(s: State): State
    requires s.worker.Taken?
  {
    var p := s.worker;
    s.(worker := if p.write.session == p.session && SessionCurrent(s.radio, p.session) then Ready(p.session, p.now, p.left, p.write)
                 else Looking(p.session, p.now, p.left))
  }

  /** The statuses the write in hand earns: an abandoned partial frame, then its own error. */
  function Said(s: State): seq<Output>
    requires s.worker.Ready?
  {
    var w := s.worker.write;
    var late := IdleAt(Parser(s.buffer, s.last, []), w.received);
    (if late then [Status(0x11)] else []) + ErrorOutput(Feed(if late then [] else s.buffer, w.bytes).result)
  }

  function FeedOne(s: State): State
    requires s.worker.Ready?
  {
    var p, w := s.worker, s.worker.write;
    var late := IdleAt(Parser(s.buffer, s.last, []), w.received);
    var fed := Feed(if late then [] else s.buffer, w.bytes);
    s.(buffer := fed.buffer, last := w.received, items := Append(s.items, p.session, [Took(w)]),
       handed := Append(s.handed, p.session, Said(s)),
       worker := if fed.frame.Some? then Delivering(p.session, p.now, p.left, fed.frame.value) else Looking(p.session, p.now, p.left))
  }

  function Dispatch(s: State): State
    requires s.worker.Delivering?
  {
    var p := s.worker;
    s.(worker := Looking(p.session, p.now, p.left),
       handed := if SessionCurrent(s.radio, p.session) then Append(s.handed, p.session, [Deliver(p.frame)]) else s.handed)
  }

  function EndPoll(s: State): State
    requires s.worker.Closing?
  {
    var r, p := s.radio, s.worker;
    var idle := r.queue == [] && r.session == p.session && !r.blocked;
    if idle && IdleAt(Parser(s.buffer, s.last, []), p.now) then
      s.(buffer := [], worker := Resting, items := Append(s.items, p.session, [Quiet(p.now)]),
         handed := Append(s.handed, p.session, [Status(0x11)]))
    else s.(worker := Resting)
  }

  // ----- runs

  datatype Step =
    | DoConnect(connection: nat) | DoDisconnect(connection: nat) | DoSubscribe(connection: nat, screenshot: bool, on: bool)
    | DoWrite(connection: nat, received: nat, bytes: seq<byte>) | DoSend(handle: nat, mtu: nat, memory: bool)
    | DoNotify(session: nat, screenshot: bool, bytes: seq<byte>, asked: bool) | DoStart(now: nat) | DoTake | DoRecheck | DoFeed
    | DoDispatch | DoEnd

  predicate Enabled(s: State, e: Step) {
    match e
    case DoSend(_, _, _) => s.radio.outgoing != []
    case DoStart(_) => s.worker.Resting?
    case DoTake => s.worker.Looking?
    case DoRecheck => s.worker.Taken?
    case DoFeed => s.worker.Ready?
    case DoDispatch => s.worker.Delivering?
    case DoEnd => s.worker.Closing?
    case _ => true
  }

  function Apply(s: State, e: Step): State
    requires Enabled(s, e)
  {
    match e
    case DoConnect(c) => s.(radio := OnConnect(s.radio, c))
    case DoDisconnect(c) => s.(radio := OnDisconnect(s.radio, c))
    case DoSubscribe(c, screenshot, on) => s.(radio := OnSubscribe(s.radio, c, screenshot, on))
    case DoWrite(c, received, bytes) => OnWrite(s, c, received, bytes)
    case DoSend(handle, mtu, memory) => SendNext(s, handle, mtu, memory)
    case DoNotify(session, screenshot, bytes, asked) => s.(radio := Notify(s.radio, session, screenshot, bytes, asked))
    case DoStart(now) => StartPoll(s, now)
    case DoTake => TakeNext(s)
    case DoRecheck => Recheck(s)
    case DoFeed => FeedOne(s)
    case DoDispatch => Dispatch(s)
    case DoEnd => EndPoll(s)
  }

  function Begun(): State {
    State(Radio(false, CONN_NONE, 0, 1, false, 0, false, false, [], []), Resting, [], 0, 0, map[], map[], map[], [])
  }

  predicate Possible(s: State, steps: seq<Step>)
    decreases |steps|
  {
    steps == [] || (Enabled(s, steps[0]) && Possible(Apply(s, steps[0]), steps[1..]))
  }

  function After(s: State, steps: seq<Step>): State
    requires Possible(s, steps)
    decreases |steps|
  {
    if steps == [] then s else After(Apply(s, steps[0]), steps[1..])
  }

  // ----- what every step keeps

  predicate RadioOk(r: Radio) {
    (forall w | w in r.queue :: w.session == r.session) && |r.queue| <= QUEUE_LENGTH && |r.outgoing| <= TX_QUEUE_LENGTH &&
    (r.queue != [] ==> r.connected && !r.blocked) && (r.pendingError != 0 ==> r.connected && r.blocked) &&
    (forall o | o in r.outgoing :: o.session == r.session && o.link == r.link)
  }

  function InHand(w: Worker): seq<Ingress> { if w.Taken? || w.Ready? then [w.write] else [] }

  function Owed(w: Worker): seq<Output> { if w.Delivering? then [Deliver(w.frame)] else [] }

  predicate Busy(w: Worker) { w.Taken? || w.Ready? || w.Delivering? }

  predicate WorkerOk(s: State) {
    var r, w := s.radio, s.worker;
    s.parsing <= r.session && (r.pendingError != 0 ==> s.parsing < r.session) &&
    (!w.Resting? ==> w.session == s.parsing && (s.parsing == r.session ==> !r.blocked)) &&
    (Busy(w) && s.parsing == r.session ==> r.connected) &&
    (w.Taken? || w.Ready? ==> w.write.session == w.session)
  }

  /** What happened in one session: what the parser met are its accepted writes from the first on, and what was handed on is
      what those writes parse to, from the first on. */
  predicate HistoryOk(s: State, k: nat) {
    Writes(At(s.items, k)) <= At(s.accepted, k) && At(s.handed, k) <= Parse(At(s.items, k)).outputs &&
    QuietsHeld(At(s.items, k)) &&
    (k > s.radio.session ==> At(s.accepted, k) == []) && (k > s.parsing ==> At(s.items, k) == [])
  }

  predicate ParserOk(s: State) {
    var p := Parse(At(s.items, s.parsing));
    p.buffer == s.buffer && p.last == s.last && Writes(At(s.items, s.parsing)) + InHand(s.worker) <= At(s.accepted, s.parsing) &&
    (s.worker.Ready? || s.worker.Delivering? || s.parsing == s.radio.session ==>
      p.outputs == At(s.handed, s.parsing) + Owed(s.worker))
  }

  /** Nothing accepted under the current session is lost: it is parsed, in hand, or queued. */
  predicate CurrentOk(s: State) {
    var k := s.radio.session;
    (At(s.accepted, k) != [] ==> s.radio.connected && !s.radio.blocked) &&
    At(s.accepted, k) == (if s.parsing == k then Writes(At(s.items, k)) + InHand(s.worker) else []) + s.radio.queue
  }

  predicate SentOk(e: Sent) {
    e.out.session == e.at.session && e.out.link == e.link == e.at.link && SessionCurrent(e.at, e.out.session) &&
    if e.out.screenshot then e.at.screenshotOn else e.at.statusOn
  }

  ghost predicate Inv(s: State) {
    RadioOk(s.radio) && WorkerOk(s) && ParserOk(s) && CurrentOk(s) && (forall k: nat :: HistoryOk(s, k)) && forall e | e in s.sent :: SentOk(e)
  }

  lemma BegunKeeps()
    ensures Inv(Begun())
  {
    var s := Begun();
    assert forall k: nat :: At(s.items, k) == [] && At(s.accepted, k) == [] && At(s.handed, k) == [];
  }

  lemma WriteKeeps(s: State, connection: nat, received: nat, bytes: seq<byte>)
    requires Inv(s)
    ensures Inv(OnWrite(s, connection, received, bytes))
  {
    hide Parse, Writes, QuietsHeld, SentOk;
    hide At, Append, WorkerOk, ParserOk, CurrentOk, HistoryOk, SentOk;
    if Accepts(s.radio, connection, bytes) {
      AcceptKeeps(s, Ingress(received, s.radio.session, bytes));
    } else if OnWrite(s, connection, received, bytes) != s {
      SessionEnds(s, OnWrite(s, connection, received, bytes).radio);
    }
  }

  lemma AcceptKeeps(s: State, w: Ingress)
    requires Inv(s) && s.radio.connected && !s.radio.blocked && |s.radio.queue| < QUEUE_LENGTH && w.session == s.radio.session
    ensures Inv(s.(radio := s.radio.(queue := s.radio.queue + [w]), accepted := Append(s.accepted, w.session, [w])))
  {
    hide Parse, Writes, QuietsHeld, SentOk, At, Append;
    var t := s.(radio := s.radio.(queue := s.radio.queue + [w]), accepted := Append(s.accepted, w.session, [w]));
    AppendAt(s.accepted, w.session, [w]);
    assert HistoryOk(s, w.session);
    forall k: nat ensures HistoryOk(t, k) { assert HistoryOk(s, k); }
  }

  /** A session that ends takes its queues with it. */
  lemma SessionEnds(s: State, r: Radio)
    requires Inv(s) && r.session == s.radio.session + 1 && r.queue == [] && r.outgoing == []
    requires r.pendingError != 0 ==> r.connected && r.blocked
    ensures Inv(s.(radio := r))
  {
    hide Parse, Writes, QuietsHeld, SentOk;
    var t := s.(radio := r);
    forall k: nat ensures HistoryOk(t, k) { assert HistoryOk(s, k); }
    assert HistoryOk(s, r.session);
  }

  lemma HostKeeps(s: State, connection: nat, screenshot: bool, on: bool)
    requires Inv(s)
    ensures Inv(s.(radio := OnConnect(s.radio, connection))) && Inv(s.(radio := OnDisconnect(s.radio, connection)))
    ensures Inv(s.(radio := OnSubscribe(s.radio, connection, screenshot, on)))
  {
    hide Parse, Writes, QuietsHeld, SentOk;
    if OnConnect(s.radio, connection) != s.radio { SessionEnds(s, OnConnect(s.radio, connection)); }
    if OnDisconnect(s.radio, connection) != s.radio { SessionEnds(s, OnDisconnect(s.radio, connection)); }
    var t := s.(radio := OnSubscribe(s.radio, connection, screenshot, on));
    forall k: nat ensures HistoryOk(t, k) { assert HistoryOk(s, k); }
  }

  lemma SendKeeps(s: State, handle: nat, mtu: nat, memory: bool)
    requires Inv(s) && s.radio.outgoing != []
    ensures Inv(SendNext(s, handle, mtu, memory))
  {
    hide Parse, Writes, QuietsHeld;
    var t := SendNext(s, handle, mtu, memory);
    assert s.radio.outgoing[0] in s.radio.outgoing;
    forall k: nat ensures HistoryOk(t, k) { assert HistoryOk(s, k); }
  }

  lemma NotifyKeeps(s: State, session: nat, screenshot: bool, bytes: seq<byte>, asked: bool)
    requires Inv(s)
    ensures Inv(s.(radio := Notify(s.radio, session, screenshot, bytes, asked)))
  {
    hide Parse, Writes, QuietsHeld, SentOk;
    var t := s.(radio := Notify(s.radio, session, screenshot, bytes, asked));
    forall k: nat ensures HistoryOk(t, k) { assert HistoryOk(s, k); }
  }

  lemma Grown(items: seq<Item>, item: Item)
    ensures Parse(items + [item]) == Advance(Parse(items), item)
    ensures Writes(items + [item]) == Writes(items) + if item.Took? then [item.write] else []
    ensures QuietsHeld(items + [item]) <==> QuietsHeld(items) && (item.Quiet? ==> IdleAt(Parse(items), item.now))
  {
    assert (items + [item])[..|items|] == items;
  }

  lemma StartKeeps(s: State, now: nat)
    requires Inv(s) && s.worker.Resting?
    ensures Inv(StartPoll(s, now))
  {
    hide Inv, At, Append;
    if s.radio.pendingError != 0 { ReportKeeps(s, now); } else { BeginKeeps(s, now); }
  }

  lemma BeginKeeps(s: State, now: nat)
    requires Inv(s) && s.worker.Resting? && s.radio.pendingError == 0
    ensures Inv(StartPoll(s, now))
  {
    hide Parse, Writes, QuietsHeld, SentOk, Advance, At;
    var t, k := StartPoll(s, now), s.radio.session;
    if k != s.parsing {
      assert HistoryOk(s, k);
      NothingParsed();
    }
    forall j: nat ensures HistoryOk(t, j) { assert HistoryOk(s, j); }
  }

  lemma ReportKeeps(s: State, now: nat)
    requires Inv(s) && s.worker.Resting? && s.radio.pendingError != 0
    ensures Inv(StartPoll(s, now))
  {
    hide Parse, Writes, QuietsHeld, SentOk, Advance, At, Append;
    var t, k, error := StartPoll(s, now), s.radio.session, s.radio.pendingError;
    AppendAt(s.items, k, [Opened(error)]);
    AppendAt(s.handed, k, [Status(error)]);
    assert HistoryOk(s, k);
    NothingParsed();
    Opening(error);
    forall j: nat ensures HistoryOk(t, j) { assert HistoryOk(s, j); }
  }

  lemma NothingParsed()
    ensures Parse([]) == Parser([], 0, []) && Writes([]) == [] && QuietsHeld([])
  {
  }

  lemma Opening(error: byte)
    ensures Parse([] + [Opened(error)]) == Parser([], 0, [Status(error)]) && Writes([] + [Opened(error)]) == []
    ensures QuietsHeld([] + [Opened(error)])
  {
    Grown([], Opened(error));
  }

  lemma TailOk(r: Radio)
    requires RadioOk(r) && r.queue != []
    ensures RadioOk(r.(queue := r.queue[1..])) && r.queue[0].session == r.session && r.connected && !r.blocked
  {
    var q := r.queue;
    assert q[0] in q && forall w | w in q[1..] :: w in q;
  }

  lemma HeadMoves<T>(w: seq<T>, q: seq<T>)
    requires q != []
    ensures w + q == w + [q[0]] + q[1..] && w + [q[0]] <= w + q
  {
  }

  lemma TakeKeeps(s: State)
    requires Inv(s) && s.worker.Looking?
    ensures Inv(TakeNext(s))
  {
    hide Parse, Writes, QuietsHeld, SentOk, At, RadioOk;
    var t := TakeNext(s);
    forall k: nat ensures HistoryOk(t, k) { assert HistoryOk(s, k); }
    if t.worker.Taken? {
      TailOk(s.radio);
      HeadMoves(Writes(At(s.items, s.parsing)), s.radio.queue);
      assert CurrentOk(t) && ParserOk(t) by { hide HistoryOk; }
    }
  }

  lemma RecheckKeeps(s: State)
    requires Inv(s) && s.worker.Taken?
    ensures Inv(Recheck(s))
  {
    hide Parse, Writes, QuietsHeld, SentOk;
    var t := Recheck(s);
    forall k: nat ensures HistoryOk(t, k) { assert HistoryOk(s, k); }
  }

  /** One more write in the session being parsed. */
  lemma FeedRecorded(s: State)
    requires Inv(s) && s.worker.Ready?
    ensures var t, k := FeedOne(s), s.parsing;
            At(t.items, k) == At(s.items, k) + [Took(s.worker.write)] && At(t.handed, k) == At(s.handed, k) + Said(s) &&
            Writes(At(t.items, k)) == Writes(At(s.items, k)) + [s.worker.write] &&
            (QuietsHeld(At(s.items, k)) ==> QuietsHeld(At(t.items, k))) &&
            Parse(At(t.items, k)) == Parser(t.buffer, t.last, At(t.handed, k) + Owed(t.worker)) &&
            forall j: nat | j != k :: At(t.items, j) == At(s.items, j) && At(t.handed, j) == At(s.handed, j)
  {
    hide Parse, Writes, QuietsHeld, SentOk, Feed, At, Append, RadioOk, CurrentOk, HistoryOk;
    var k, w := s.parsing, s.worker.write;
    AppendAt(s.items, k, [Took(w)]);
    AppendAt(s.handed, k, Said(s));
    Grown(At(s.items, k), Took(w));
  }

  lemma FeedKeeps(s: State)
    requires Inv(s) && s.worker.Ready?
    ensures Inv(FeedOne(s))
  {
    hide Parse, Writes, QuietsHeld, SentOk, Feed, At, Append, Said, IdleAt, ErrorOutput;
    var t := FeedOne(s);
    FeedRecorded(s);
    forall j: nat ensures HistoryOk(t, j) { assert HistoryOk(s, j); }
  }

  lemma DispatchKeeps(s: State)
    requires Inv(s) && s.worker.Delivering?
    ensures Inv(Dispatch(s))
  {
    hide Parse, Writes, QuietsHeld, SentOk, At, Append;
    var t := Dispatch(s);
    AppendAt(s.handed, s.parsing, [Deliver(s.worker.frame)]);
    forall j: nat ensures HistoryOk(t, j) { assert HistoryOk(s, j); }
  }

  lemma EndKeeps(s: State)
    requires Inv(s) && s.worker.Closing?
    ensures Inv(EndPoll(s))
  {
    hide Parse, Writes, QuietsHeld, SentOk, At, Append;
    var t, k := EndPoll(s), s.parsing;
    AppendAt(s.items, k, [Quiet(s.worker.now)]);
    AppendAt(s.handed, k, [Status(0x11)]);
    Grown(At(s.items, k), Quiet(s.worker.now));
    assert HistoryOk(s, k);
    forall j: nat ensures HistoryOk(t, j) { assert HistoryOk(s, j); }
  }

  lemma StepKeeps(s: State, e: Step)
    requires Inv(s) && Enabled(s, e)
    ensures Inv(Apply(s, e))
  {
    hide Inv, OnConnect, OnDisconnect, OnSubscribe, OnWrite, SendNext, Notify, StartPoll, TakeNext, Recheck, FeedOne,
      Dispatch, EndPoll;
    match e
    case DoConnect(c) => HostKeeps(s, c, false, false);
    case DoDisconnect(c) => HostKeeps(s, c, false, false);
    case DoSubscribe(c, screenshot, on) => HostKeeps(s, c, screenshot, on);
    case DoWrite(c, received, bytes) => WriteKeeps(s, c, received, bytes);
    case DoSend(handle, mtu, memory) => SendKeeps(s, handle, mtu, memory);
    case DoNotify(session, screenshot, bytes, asked) => NotifyKeeps(s, session, screenshot, bytes, asked);
    case DoStart(now) => StartKeeps(s, now);
    case DoTake => TakeKeeps(s);
    case DoRecheck => RecheckKeeps(s);
    case DoFeed => FeedKeeps(s);
    case DoDispatch => DispatchKeeps(s);
    case DoEnd => EndKeeps(s);
  }

  lemma {:induction false} RunKeeps(s: State, steps: seq<Step>)
    requires Inv(s) && Possible(s, steps)
    ensures Inv(After(s, steps))
    decreases |steps|
  {
    hide Inv, Apply, Enabled;
    if steps != [] {
      StepKeeps(s, steps[0]);
      RunKeeps(Apply(s, steps[0]), steps[1..]);
    }
  }

  /**
   * After any run from start-up, and for every session: the writes the parser met are the writes accepted under that
   * session from the first on, and the frames and statuses handed on are what they parse to, from the first on. For
   * the current session nothing is missing but what is still queued or in hand. A notification went out only on the
   * connection it was queued for, in its own session and while subscribed.
   */
  lemma PerSessionDelivery(steps: seq<Step>, k: nat)
    requires Possible(Begun(), steps)
    ensures var s := After(Begun(), steps);
            Writes(At(s.items, k)) <= At(s.accepted, k) &&
            At(s.handed, k) <= Parse(At(s.items, k)).outputs &&
            (k == s.radio.session == s.parsing && s.worker.Resting? ==>
              At(s.accepted, k) == Writes(At(s.items, k)) + s.radio.queue && At(s.handed, k) == Parse(At(s.items, k)).outputs) &&
            forall e | e in s.sent :: SentOk(e)
  {
    hide Possible, After, Parse, Writes, QuietsHeld, SentOk;
    BegunKeeps();
    RunKeeps(Begun(), steps);
    assert HistoryOk(After(Begun(), steps), k);
  }

  /** An oversize write, or one that finds the queue full, ends the session and is refused; so is every write after it
      until the worker looks, which leaves the code to report. */
  lemma RefusalBlocks(s: State, connection: nat, received: nat, bytes: seq<byte>)
    requires Inv(s) && s.radio.connected && s.radio.connection == connection && !s.radio.blocked
    requires |bytes| > WRITE_MAX || |s.radio.queue| == QUEUE_LENGTH
    ensures var t := OnWrite(s, connection, received, bytes);
            t.radio.session == s.radio.session + 1 && t.radio.queue == [] && t.radio.outgoing == [] && t.accepted == s.accepted &&
            t.radio.pendingError == (if |bytes| > WRITE_MAX then 0x15 else 0x1b) &&
            forall later, more :: OnWrite(t, connection, later, more) == t
  {
  }

  /** The report is the first thing the new session hears. */
  lemma RefusalReported(s: State, now: nat)
    requires Inv(s) && s.worker.Resting? && s.radio.pendingError != 0
    ensures var t := StartPoll(s, now);
            At(t.handed, s.radio.session) == [Status(s.radio.pendingError)] && t.radio.pendingError == 0 && !t.radio.blocked
  {
    hide Parse, Writes, QuietsHeld, SentOk, At, Append;
    var k := s.radio.session;
    assert HistoryOk(s, k);
    NothingParsed();
    AppendAt(s.handed, k, [Status(s.radio.pendingError)]);
  }

  lemma {:induction false} FramesAppend(a: seq<Output>, b: seq<Output>)
    ensures Frames(a + b) == Frames(a) + Frames(b)
    decreases |b|
  {
    if b == [] {
      assert a + b == a;
    } else {
      var n := |b| - 1;
      assert (a + b)[..|a + b| - 1] == a + b[..n];
      FramesAppend(a, b[..n]);
    }
  }

  lemma StatusesOnly(s: State, a: seq<Output>)
    requires s.worker.Ready?
    ensures Frames(a + Said(s)) == Frames(a)
  {
    hide Feed, IdleAt;
    var w := s.worker.write;
    var late := IdleAt(Parser(s.buffer, s.last, []), w.received);
    var error := ErrorOutput(Feed(if late then [] else s.buffer, w.bytes).result);
    FramesAppend(a, Said(s));
    FramesAppend(if late then [Status(0x11)] else [], error);
  }

  lemma SessionsGrow(s: State, e: Step)
    requires Enabled(s, e)
    ensures s.radio.session <= Apply(s, e).radio.session
  {
    hide Append, Feed, At, IdleAt, Said;
    match e
    case DoWrite(c, received, bytes) => assert OnWrite(s, c, received, bytes).radio.session >= s.radio.session;
    case DoStart(now) => assert StartPoll(s, now).radio.session == s.radio.session;
    case DoFeed =>
    case DoDispatch =>
    case DoEnd =>
    case _ =>
  }

  /** Once a session is over, no frame of it is handed on any more, and nothing is accepted into it. */
  lemma OverIsOver(s: State, e: Step, k: nat)
    requires Inv(s) && Enabled(s, e) && k < s.radio.session
    ensures At(Apply(s, e).accepted, k) == At(s.accepted, k)
    ensures Frames(At(Apply(s, e).handed, k)) == Frames(At(s.handed, k))
    ensures k < Apply(s, e).radio.session
  {
    hide Frames, Feed, Said, At, Append, Parse, Writes, RadioOk, ParserOk, CurrentOk, HistoryOk, SentOk, IdleAt;
    hide OnConnect, OnDisconnect, OnSubscribe, Reject, Notify;
    SessionsGrow(s, e);
    AppendedElsewhere(s, k);
    if e.DoFeed? {
      AppendAt(s.handed, s.parsing, Said(s));
      StatusesOnly(s, At(s.handed, k));
    }
  }

  lemma AppendedElsewhere(s: State, k: nat)
    requires k < s.radio.session
    ensures forall x :: At(Append(s.accepted, s.radio.session, x), k) == At(s.accepted, k)
    ensures forall x :: At(Append(s.handed, s.radio.session, x), k) == At(s.handed, k)
  {
  }

  // ----- polls do not change what is delivered

  /** The parse of the writes alone, with the idle rule taken between writes only. */
  function ParseWrites(writes: seq<Ingress>): Parser {
    if writes == [] then Parser([], 0, []) else Consume(ParseWrites(writes[..|writes| - 1]), writes[|writes| - 1])
  }

  /** Since the last write a poll has found the line quiet and given the partial frame up. */
  predicate GivenUp(items: seq<Item>) {
    items != [] && var last := items[|items| - 1]; last.Quiet? || (last.Opened? && GivenUp(items[..|items| - 1]))
  }

  /** A write stamped so soon after the one before that it does not itself count as late, met after the partial frame was
      given up: it was stamped before, but queued after, a look at the clock. */
  predicate Early(items: seq<Item>, received: nat) { GivenUp(items) && received < Parse(items).last + IDLE_MS }

  predicate Punctual(items: seq<Item>) {
    items == [] ||
    (Punctual(items[..|items| - 1]) &&
     var last := items[|items| - 1]; last.Took? ==> !Early(items[..|items| - 1], last.write.received))
  }

  /** Either the two parsers agree, or a poll has already given up what the other will give up at the next write. */
  predicate Agree(items: seq<Item>, p: Parser, q: Parser) {
    p.last == q.last && Frames(p.outputs) == Frames(q.outputs) &&
    if GivenUp(items) then p.buffer == [] && q.buffer != [] else p.buffer == q.buffer
  }

  lemma FramesOf(p: Parser, w: Ingress)
    ensures var fed := Feed(if IdleAt(p, w.received) then [] else p.buffer, w.bytes);
            Frames(Consume(p, w).outputs) == Frames(p.outputs) + Frames(FrameOutput(fed.frame))
  {
    hide Feed, IdleAt, Frames;
    var late := IdleAt(p, w.received);
    var fed := Feed(if late then [] else p.buffer, w.bytes);
    var first, second, third := if late then [Status(0x11)] else [], FrameOutput(fed.frame), ErrorOutput(fed.result);
    FramesAppend(p.outputs + first + second, third);
    FramesAppend(p.outputs + first, second);
    FramesAppend(p.outputs, first);
    StatusFrames(first, third);
  }

  lemma StatusFrames(first: seq<Output>, third: seq<Output>)
    ensures first == [] || first == [Status(0x11)] ==> Frames(first) == []
    ensures third == [] || third == [Status(0x15)] || third == [Status(0x10)] ==> Frames(third) == []
  {
  }

  lemma WritesGrown(writes: seq<Ingress>, w: Ingress)
    ensures ParseWrites(writes + [w]) == Consume(ParseWrites(writes), w)
  {
    assert (writes + [w])[..|writes|] == writes;
  }

  lemma NothingDiffers()
    ensures Agree([], Parse([]), ParseWrites(Writes([])))
  {
  }

  lemma LastItem(items: seq<Item>, item: Item)
    ensures GivenUp(items + [item]) <==> item.Quiet? || (item.Opened? && GivenUp(items))
    ensures Punctual(items + [item]) <==> Punctual(items) && (item.Took? ==> !Early(items, item.write.received))
  {
    assert (items + [item])[..|items|] == items;
  }

  lemma {:induction false} PollsAgree(items: seq<Item>)
    requires QuietsHeld(items) && Punctual(items)
    ensures Agree(items, Parse(items), ParseWrites(Writes(items)))
  {
    hide Agree, Consume, Parse, Writes, ParseWrites, QuietsHeld, IdleAt, Early, GivenUp, Punctual;
    if items == [] {
      NothingDiffers();
    } else {
      var n := |items| - 1;
      var front, item := items[..n], items[n];
      assert items == front + [item];
      Grown(front, item);
      LastItem(front, item);
      PollsAgree(front);
      AgreeOn(front, item, Parse(front), ParseWrites(Writes(front)));
      if item.Took? { WritesGrown(Writes(front), item.write); } else { assert Writes(front) + [] == Writes(front); }
    }
  }

  lemma AgreeOn(items: seq<Item>, item: Item, p: Parser, q: Parser)
    requires Agree(items, p, q) && p == Parse(items) && (item.Quiet? ==> IdleAt(p, item.now))
    requires item.Took? ==> !Early(items, item.write.received)
    ensures Agree(items + [item], Advance(p, item), if item.Took? then Consume(q, item.write) else q)
  {
    hide Feed, Frames, GivenUp, Parse, Punctual;
    LastItem(items, item);
    match item
    case Opened(error) => OneStatus(p.outputs, error);
    case Took(w) =>
      FramesOf(p, w);
      FramesOf(q, w);
    case Quiet(now) => OneStatus(p.outputs, 0x11);
  }

  const PROBE: seq<byte> := [1, 0x30, 0, 0]

  lemma {:induction false} FrameLength(held: seq<byte>, data: seq<byte>)
    ensures Feed(held, data).frame.Some? ==> |Feed(held, data).frame.value.payload| + 4 > |held|
    decreases |data|
  {
    if data != [] { FrameLength(held + [data[0]], data[1..]); }
  }

  /** The probe is a whole frame to an empty parser, and no parser that holds anything makes that frame of it. */
  lemma ProbeFeeds(held: seq<byte>)
    ensures Feed(held, PROBE).frame == Some(Frame(0x30, [])) <==> held == []
  {
    if held == [] {
      var f := Frame(0x30, []);
      assert Encode(f) == PROBE;
      FeedEncoded(f, [], PROBE);
    } else if |held| >= 4 {
      FrameLength(held, PROBE);
    } else {
      HeldTo4(held, PROBE);
    }
  }

  lemma {:induction false} HeldTo4(held: seq<byte>, data: seq<byte>)
    requires |held| < 4 <= |held| + |data|
    ensures var n := 4 - |held|; var b := held + data[..n];
            PayloadLength(b) > 0 && Feed(held, data).frame.Some? ==> |Feed(held, data).frame.value.payload| > 0
    decreases |data|
  {
    var b, n := held + [data[0]], 4 - |held|;
    if n == 1 {
      assert data[..1] == [data[0]];
      FrameLength(b, data[1..]);
    } else {
      assert b + data[1..][..n - 1] == held + data[..n];
      HeldTo4(b, data[1..]);
    }
  }

  lemma OneStatus(a: seq<Output>, code: byte)
    ensures Frames(a + [Status(code)]) == Frames(a)
  {
    assert (a + [Status(code)])[..|a|] == a;
  }

  lemma {:induction false} MoreWrites(a: seq<Ingress>, b: seq<Ingress>)
    requires a <= b
    ensures ParseWrites(a).outputs <= ParseWrites(b).outputs
    decreases |b|
  {
    if a == b {
    } else {
      assert a == b[..|a|] == b[..|b| - 1][..|a|];
      MoreWrites(a, b[..|b| - 1]);
    }
  }

  lemma FramesOfPrefix(a: seq<Output>, b: seq<Output>)
    requires a <= b
    ensures Frames(a) <= Frames(b)
  {
    hide Frames;
    assert b == a + b[|a|..];
    FramesAppend(a, b[|a|..]);
  }

  /** One write more, after a history on which the parsers agree. */
  lemma MoreFrames(items: seq<Item>, w: Ingress)
    requires QuietsHeld(items) && Punctual(items)
    ensures var p, q := Parse(items), ParseWrites(Writes(items)); var late := IdleAt(q, w.received);
            Frames(Parse(items + [Took(w)]).outputs) ==
              Frames(p.outputs) + Frames(FrameOutput(Feed(if GivenUp(items) || late then [] else p.buffer, w.bytes).frame)) &&
            Frames(ParseWrites(Writes(items) + [w]).outputs) ==
              Frames(p.outputs) + Frames(FrameOutput(Feed(if late then [] else q.buffer, w.bytes).frame)) &&
            (if GivenUp(items) then q.buffer != [] && (late <==> !Early(items, w.received)) else p.buffer == q.buffer)
  {
    hide Feed, Parse, ParseWrites, Writes, QuietsHeld, Punctual, GivenUp, Frames, Consume;
    PollsAgree(items);
    Grown(items, Took(w));
    WritesGrown(Writes(items), w);
    FramesOf(Parse(items), w);
    FramesOf(ParseWrites(Writes(items)), w);
  }

  /** Exactly when a poll changes what is delivered: two parsers that have agreed so far go on to hand over the same frames at
      the next write, whatever it holds, if and only if it is not early. */
  lemma PunctualExactly(items: seq<Item>, received: nat)
    requires QuietsHeld(items) && Punctual(items)
    ensures !Early(items, received) <==>
              forall session: nat, bytes: seq<byte> ::
                var w := Ingress(received, session, bytes);
                Frames(Parse(items + [Took(w)]).outputs) == Frames(ParseWrites(Writes(items) + [w]).outputs)
  {
    hide Feed, Parse, ParseWrites, Writes, QuietsHeld, Punctual, GivenUp, Frames, Consume, PROBE;
    if Early(items, received) {
      var w, q := Ingress(received, 0, PROBE), ParseWrites(Writes(items));
      MoreFrames(items, w);
      ProbeFeeds([]);
      ProbeFeeds(q.buffer);
      OneFrame(Feed([], PROBE).frame, Feed(q.buffer, PROBE).frame);
      PrefixCancels(Frames(Parse(items).outputs), Frames(FrameOutput(Feed([], PROBE).frame)), Frames(FrameOutput(Feed(q.buffer, PROBE).frame)));
      assert w.bytes == PROBE && Frames(Parse(items + [Took(w)]).outputs) != Frames(ParseWrites(Writes(items) + [w]).outputs);
    } else {
      forall session: nat, bytes: seq<byte>
        ensures var w := Ingress(received, session, bytes);
                Frames(Parse(items + [Took(w)]).outputs) == Frames(ParseWrites(Writes(items) + [w]).outputs)
      {
        MoreFrames(items, Ingress(received, session, bytes));
      }
    }
  }

  lemma OneFrame(a: Option<Frame>, b: Option<Frame>)
    ensures Frames(FrameOutput(a)) == Frames(FrameOutput(b)) <==> a == b
  {
    FrameAlone(a);
    FrameAlone(b);
  }

  lemma PrefixCancels<T>(a: seq<T>, b: seq<T>, c: seq<T>)
    ensures a + b == a + c <==> b == c
  {
    assert b == (a + b)[|a|..] && c == (a + c)[|a|..];
  }

  lemma FrameAlone(a: Option<Frame>)
    ensures Frames(FrameOutput(a)) == if a.Some? then [a.value] else []
  {
    if a.Some? { assert [Deliver(a.value)][..0] == []; }
  }

  /**
   * In every session the frames dispatched are, from the first on, the frames of its accepted writes parsed one by
   * one with a partial frame given up after two idle seconds, wherever the polls fell; provided no write was stamped
   * before, but queued after, a poll that found the line quiet.
   */
  lemma FramesInOrder(steps: seq<Step>, k: nat)
    requires Possible(Begun(), steps) && Punctual(At(After(Begun(), steps).items, k))
    ensures var s := After(Begun(), steps); Frames(At(s.handed, k)) <= Frames(ParseWrites(At(s.accepted, k)).outputs)
  {
    hide Possible, After, Parse, Writes, QuietsHeld, SentOk, Punctual, Frames, ParseWrites;
    BegunKeeps();
    RunKeeps(Begun(), steps);
    var s := After(Begun(), steps);
    assert HistoryOk(s, k);
    PollsAgree(At(s.items, k));
    FramesOfPrefix(At(s.handed, k), Parse(At(s.items, k)).outputs);
    MoreWrites(Writes(At(s.items, k)), At(s.accepted, k));
    FramesOfPrefix(ParseWrites(Writes(At(s.items, k))).outputs, ParseWrites(At(s.accepted, k)).outputs);
  }

  // ----- a run with an early write

  lemma {:induction false} RunsJoin(s: State, a: seq<Step>, b: seq<Step>)
    requires Possible(s, a) && Possible(After(s, a), b)
    ensures Possible(s, a + b) && After(s, a + b) == After(After(s, a), b)
    decreases |a|
  {
    hide Apply, Enabled;
    if a == [] {
      assert a + b == b;
    } else {
      assert (a + b)[1..] == a[1..] + b;
      RunsJoin(Apply(s, a[0]), a[1..], b);
    }
  }

  lemma OneStep(s: State, e: Step)
    requires Enabled(s, e)
    ensures Possible(s, [e]) && After(s, [e]) == Apply(s, e)
  {
  }

  /** A poll that meets one write. */
  function Poll(now: nat): seq<Step> { [DoStart(now)] + [DoTake] + [DoRecheck] + [DoFeed] + [DoTake] + [DoEnd] }

  predicate Waiting(s: State, w: Ingress) {
    var r := s.radio;
    s.worker.Resting? && r.connected && !r.blocked && r.pendingError == 0 && r.queue == [w] && w.session == r.session && s.buffer == []
  }

  lemma {:induction false} StepsJoin(s: State, a: seq<Step>, e: Step)
    requires Possible(s, a) && Enabled(After(s, a), e)
    ensures Possible(s, a + [e]) && After(s, a + [e]) == Apply(After(s, a), e)
  {
    hide Apply, Enabled, Possible, After;
    OneStep(After(s, a), e);
    RunsJoin(s, a, [e]);
  }

  lemma LooksFirst(s: State, now: nat, w: Ingress)
    requires Waiting(s, w)
    ensures var t := StartPoll(s, now);
            t.worker == Looking(s.radio.session, now, QUEUE_LENGTH) && t.radio == s.radio && t.parsing == s.radio.session &&
            t.buffer == [] && t.items == s.items && t.accepted == s.accepted
  {
    hide Append, At;
  }

  lemma ReadyNext(s: State, now: nat, w: Ingress)
    requires Waiting(s, w)
    ensures StartPoll(s, now).worker.Looking? && TakeNext(StartPoll(s, now)).worker.Taken?
    ensures var t := Recheck(TakeNext(StartPoll(s, now)));
            t.worker == Ready(s.radio.session, now, 7, w) && t.radio == s.radio.(queue := []) && t.parsing == s.radio.session &&
            t.buffer == [] && t.items == s.items && t.accepted == s.accepted
  {
    hide StartPoll;
    LooksFirst(s, now, w);
    assert s.radio.queue[1..] == [];
  }

  lemma PollTakes(s: State, now: nat, w: Ingress)
    requires Waiting(s, w)
    ensures var steps := [DoStart(now)] + [DoTake] + [DoRecheck];
            Possible(s, steps) && var t := After(s, steps);
            t.worker == Ready(s.radio.session, now, 7, w) && t.radio == s.radio.(queue := []) && t.parsing == s.radio.session &&
            t.buffer == [] && t.items == s.items && t.accepted == s.accepted
  {
    hide Feed, Possible, After, Append, At, Said, StartPoll, TakeNext, Recheck;
    ReadyNext(s, now, w);
    OneStep(s, DoStart(now));
    StepsJoin(s, [DoStart(now)], DoTake);
    StepsJoin(s, [DoStart(now)] + [DoTake], DoRecheck);
  }

  lemma FeedCloses(s: State, w: Ingress)
    requires s.worker.Ready? && s.worker.write == w && s.parsing == s.radio.session == s.worker.session && s.radio.queue == []
    requires !s.radio.blocked && s.buffer == [] && Feed([], w.bytes).frame.None?
    ensures var t, k, held := FeedOne(s), s.radio.session, Feed([], w.bytes).buffer;
            var idle := IdleAt(Parser(held, w.received, []), s.worker.now);
            t.worker.Looking? && TakeNext(t).worker.Closing? && var u := EndPoll(TakeNext(t));
            u.worker.Resting? && u.parsing == k && u.radio == s.radio && u.accepted == s.accepted && u.buffer == (if idle then [] else held) &&
            At(u.items, k) == At(s.items, k) + [Took(w)] + if idle then [Quiet(s.worker.now)] else []
  {
    hide Feed, Append, At, Said;
    var k := s.radio.session;
    AppendAt(s.items, k, [Took(w)]);
    AppendAt(Append(s.items, k, [Took(w)]), k, [Quiet(s.worker.now)]);
  }

  /** The write is fed, and the partial frame it leaves given up if the poll finds it idle. */
  lemma PollFeeds(s: State, now: nat, w: Ingress)
    requires Waiting(s, w) && Feed([], w.bytes).frame.None?
    ensures Possible(s, Poll(now))
    ensures var t, k, held := After(s, Poll(now)), s.radio.session, Feed([], w.bytes).buffer;
            var idle := IdleAt(Parser(held, w.received, []), now);
            t.worker.Resting? && t.parsing == k && t.radio == s.radio.(queue := []) && t.accepted == s.accepted &&
            t.buffer == (if idle then [] else held) &&
            At(t.items, k) == At(s.items, k) + [Took(w)] + if idle then [Quiet(now)] else []
  {
    hide Feed, Possible, After, Append, At, Said;
    PollTakes(s, now, w);
    var a := [DoStart(now)] + [DoTake] + [DoRecheck];
    var t := After(s, a);
    FeedCloses(t, w);
    StepsJoin(s, a, DoFeed);
    StepsJoin(s, a + [DoFeed], DoTake);
    StepsJoin(s, a + [DoFeed] + [DoTake], DoEnd);
    assert Poll(now) == a + [DoFeed] + [DoTake] + [DoEnd];
  }

  const HEAD: seq<byte> := [1, 0x30, 0]
  const TAIL: seq<byte> := [0]

  /** A frame in two writes, 1999 milliseconds apart; the second reaches the queue only after a poll has looked at the clock
      a millisecond later still. */
  function EarlyRun(): seq<Step> { [DoConnect(1)] + [DoWrite(1, 0, HEAD)] + Poll(2000) + [DoWrite(1, 1999, TAIL)] + Poll(2001) }

  lemma PiecesFed()
    ensures Feed([], HEAD) == Fed(HEAD, FrameOk, None) && Feed([], TAIL) == Fed(TAIL, FrameOk, None)
    ensures Feed(HEAD, TAIL) == Fed([], FrameOk, Some(Frame(0x30, [])))
  {
    var f := Frame(0x30, []);
    assert Encode(f) == HEAD + TAIL && [] + HEAD == HEAD && [] + TAIL == TAIL;
    FeedEncoded(f, [], HEAD);
    assert TAIL[1..] == [] && [TAIL[0]] == TAIL;
    FeedEncoded(f, HEAD, TAIL);
  }

  lemma EarlyRunIs()
    ensures Possible(Begun(), EarlyRun())
    ensures var s := After(Begun(), EarlyRun());
            At(s.items, 2) == [Took(Ingress(0, 2, HEAD)), Quiet(2000), Took(Ingress(1999, 2, TAIL))] && s.worker.Resting? &&
            At(s.accepted, 2) == [Ingress(0, 2, HEAD), Ingress(1999, 2, TAIL)] && s.radio.session == s.parsing == 2
  {
    hide Feed, Possible, After, Poll, Append;
    var a, b, c := [DoConnect(1)], Poll(2000), Poll(2001);
    var v, w := Ingress(0, 2, HEAD), Ingress(1999, 2, TAIL);
    PiecesFed();
    OneStep(Begun(), a[0]);
    StepsJoin(Begun(), a, DoWrite(1, 0, HEAD));
    a := a + [DoWrite(1, 0, HEAD)];
    AppendAt(map[], 2, [v]);
    PollFeeds(After(Begun(), a), 2000, v);
    RunsJoin(Begun(), a, b);
    StepsJoin(Begun(), a + b, DoWrite(1, 1999, TAIL));
    AppendAt(After(Begun(), a).accepted, 2, [w]);
    a := a + b + [DoWrite(1, 1999, TAIL)];
    PollFeeds(After(Begun(), a), 2001, w);
    RunsJoin(Begun(), a, c);
  }

  lemma GivenUpHead(v: Ingress)
    requires v == Ingress(0, 2, HEAD)
    ensures var front := [] + [Took(v)] + [Quiet(2000)];
            QuietsHeld(front) && Punctual(front) && GivenUp(front) && Writes(front) == [v] && Frames(Parse(front).outputs) == [] &&
            ParseWrites([v]) == Parser(HEAD, 0, [])
  {
    hide Feed, Parse, Writes, QuietsHeld, Punctual, GivenUp, ParseWrites, Frames;
    PiecesFed();
    NothingParsed();
    Grown([], Took(v));
    Grown([] + [Took(v)], Quiet(2000));
    LastItem([], Took(v));
    LastItem([] + [Took(v)], Quiet(2000));
    assert [] + [v] == [v];
    WritesGrown([], v);
    NothingYet();
    OneStatus([], 0x11);
  }

  lemma NothingYet()
    ensures ParseWrites([]) == Parser([], 0, []) && Punctual([]) && !GivenUp([]) && Frames([]) == []
  {
  }

  /** In this run of one session the frame is lost: not a single one is dispatched, and its writes parse to it. */
  lemma EarlyStampLosesFrame()
    ensures Possible(Begun(), EarlyRun())
    ensures var s := After(Begun(), EarlyRun());
            Frames(At(s.handed, 2)) == [] && Frames(ParseWrites(At(s.accepted, 2)).outputs) == [Frame(0x30, [])]
  {
    hide Feed, Possible, After, EarlyRun, Parse, Writes, QuietsHeld, Punctual, GivenUp, ParseWrites, Consume, Frames, HEAD, TAIL, Inv;
    EarlyRunIs();
    PerSessionDelivery(EarlyRun(), 2);
    var v, w := Ingress(0, 2, HEAD), Ingress(1999, 2, TAIL);
    var front := [] + [Took(v)] + [Quiet(2000)];
    assert [Took(v), Quiet(2000), Took(w)] == front + [Took(w)];
    PiecesFed();
    GivenUpHead(v);
    assert At(After(Begun(), EarlyRun()).accepted, 2) == Writes(front) + [w];
    MoreFrames(front, w);
    FrameAlone(None);
    FrameAlone(Some(Frame(0x30, [])));
    NothingParsed();
  }

  // ----- two seconds

  /** A frame cut into two writes is delivered if the second comes within two seconds of the first; otherwise the first piece is
      reported as abandoned and the second is parsed on its own. */
  lemma TwoSeconds(f: Frame, n: nat, first: nat, second: nat, session: nat)
    requires |f.payload| <= PAYLOAD_MAX && 0 < n < |Encode(f)| && first <= second
    ensures var a, b := Took(Ingress(first, session, Encode(f)[..n])), Took(Ingress(second, session, Encode(f)[n..]));
            Parse([] + [a] + [b]).outputs ==
              if second - first < 2000 then [Deliver(f)] else [Status(0x11)] + Parse([] + [b]).outputs
  {
    hide Feed, Encode, Parse, Writes, QuietsHeld;
    var e := Encode(f);
    var a, b := Took(Ingress(first, session, e[..n])), Took(Ingress(second, session, e[n..]));
    NothingParsed();
    Grown([], a);
    Grown([] + [a], b);
    Grown([], b);
    assert [] + e[..n] == e[..n] && e[..n] + e[n..] == e;
    FeedEncoded(f, [], e[..n]);
    FeedEncoded(f, e[..n], e[n..]);
    assert Parse([] + [a]) == Parser(e[..n], first, []);
  }

  /** The worker's last look at the clock gives a partial frame up after the same two seconds, if nothing is queued behind it. */
  lemma PollGivesUp(s: State)
    requires s.worker.Closing? && s.buffer != [] && s.radio.queue == [] && s.radio.session == s.worker.session && !s.radio.blocked
    requires s.worker.now >= s.last
    ensures var t, k := EndPoll(s), s.worker.session;
            t.worker.Resting? &&
            if s.worker.now - s.last >= 2000 then t.buffer == [] && At(t.handed, k) == At(s.handed, k) + [Status(0x11)]
            else t.buffer == s.buffer && t.handed == s.handed
  {
  }

  /** What a write is refused with is what is reported for it. */
  lemma RefusalCodes(s: State, connection: nat, received: nat, bytes: seq<byte>)
    requires s.radio.connected && s.radio.connection == connection && !s.radio.blocked
    ensures var t := OnWrite(s, connection, received, bytes);
            if |bytes| > 260 then t.radio.pendingError == 0x15 && t.radio.blocked
            else if |s.radio.queue| == 8 then t.radio.pendingError == 0x1b && t.radio.blocked
            else t.radio.queue == s.radio.queue + [Ingress(received, s.radio.session, bytes)] && t.radio.blocked == s.radio.blocked
  {
  }
}
