/**
 * Screenshot capture: the display's partial flushes are gathered strip by strip in a staging buffer with a
 * coverage bitmap, and each complete strip is programmed into erased flash. A pixel is its two octets together.
 */
module PassportCapture {
  import opened Bytes
  import Bits

  const WIDTH := 240
  const HEIGHT := 320
  const STRIP := 40
  const STRIP_PIXELS := 9600
  const FRAME_PIXELS := 76800
  const REGION_PIXELS := 77824
  const ERASED: u16 := 0xffff

  /** A flushed area and the draw buffer behind it, row by row; stride is in octets. */
  datatype Flush = Flush(x1: int, y1: int, x2: int, y2: int, rgb565: bool, stride: nat, rows: seq<seq<u16>>)

  predicate Accepted(f: Flush) {
    0 <= f.x1 <= f.x2 < WIDTH && 0 <= f.y1 <= f.y2 < HEIGHT && f.rgb565 && f.stride >= (f.x2 - f.x1 + 1) * 2
  }

  /** The draw buffer holds the whole area. */
  predicate Backed(f: Flush) {
    Accepted(f) ==> |f.rows| == f.y2 - f.y1 + 1 && forall r | r in f.rows :: |r| >= f.x2 - f.x1 + 1
  }

  predicate Shows(f: Flush, x: int, y: int) { Accepted(f) && f.x1 <= x <= f.x2 && f.y1 <= y <= f.y2 }

  function PixelOf(f: Flush, x: int, y: int): u16
    requires Backed(f) && Shows(f, x, y)
  {
    assert f.rows[y - f.y1] in f.rows;
    f.rows[y - f.y1][x - f.x1]
  }

  /** The first of these flushes to show a pixel decides it. */
  function First(flushes: seq<Flush>, x: int, y: int): Option<u16>
    requires forall f | f in flushes :: Backed(f)
  {
    if flushes == [] then None
    else
      var n := |flushes| - 1;
      Merge(First(flushes[..n], x, y), flushes[n], x, y)
  }

  function Merge(before: Option<u16>, f: Flush, x: int, y: int): Option<u16>
    requires Backed(f)
  {
    if before.Some? then before else if Shows(f, x, y) then Some(PixelOf(f, x, y)) else None
  }

  // ----- the coverage bitmap

  function Mask(k: nat): bv8
    requires k < 8
  {
    if k == 0 then 1 else if k == 1 then 2 else if k == 2 then 4 else if k == 3 then 8
    else if k == 4 then 16 else if k == 5 then 32 else if k == 6 then 64 else 128
  }

  predicate Bit(c: bv8, k: nat)
    requires k < 8
  {
    c & Mask(k) != 0
  }

  lemma BitSet(c: bv8, j: nat, k: nat)
    requires j < 8 && k < 8
    ensures Bit(c | Mask(j), k) <==> j == k || Bit(c, k)
  {
    if j == 0 {} else if j == 1 {} else if j == 2 {} else if j == 3 {} else if j == 4 {} else if j == 5 {} else if j == 6 {} else {}
  }

  lemma BitClear(k: nat)
    requires k < 8
    ensures !Bit(0, k)
  {
  }

  function CountSome(v: seq<Option<u16>>): (n: nat)
    ensures n <= |v|
  {
    if v == [] then 0 else CountSome(v[..|v| - 1]) + if v[|v| - 1].Some? then 1 else 0
  }

  lemma {:induction false} CountOneMore(v: seq<Option<u16>>, i: nat, p: u16)
    requires i < |v| && v[i].None?
    ensures CountSome(v[i := Some(p)]) == CountSome(v) + 1
    decreases |v|
  {
    var n := |v| - 1;
    var w := v[i := Some(p)];
    if i == n {
      assert w[..n] == v[..n];
    } else {
      assert w[..n] == v[..n][i := Some(p)];
      CountOneMore(v[..n], i, p);
    }
  }

  lemma {:induction false} CountAll(v: seq<Option<u16>>)
    ensures CountSome(v) == |v| <==> forall i | 0 <= i < |v| :: v[i].Some?
  {
    if v != [] {
      var n := |v| - 1;
      CountAll(v[..n]);
      assert (forall i | 0 <= i < |v| :: v[i].Some?) <==> (forall i | 0 <= i < n :: v[..n][i].Some?) && v[n].Some?;
    }
  }

  lemma {:induction false} CountNone(v: seq<Option<u16>>)
    requires forall i | 0 <= i < |v| :: v[i].None?
    ensures CountSome(v) == 0
  {
    if v != [] { CountNone(v[..|v| - 1]); }
  }

  function Cell(i: nat): nat { i / 8 }

  function Low(i: nat): (k: nat)
    ensures k < 8
  {
    i % 8
  }

  lemma Position(i: nat)
    ensures i == 8 * Cell(i) + Low(i)
    ensures i < STRIP_PIXELS ==> Cell(i) < STRIP_PIXELS / 8
  {
  }

  predicate Marked(coverage: seq<bv8>, i: nat)
    requires |coverage| == STRIP_PIXELS / 8 && i < STRIP_PIXELS
  {
    Position(i);
    Bit(coverage[Cell(i)], Low(i))
  }

  /** Pixel by pixel: what has been gathered. */
  function Gathered(pixels: seq<u16>, coverage: seq<bv8>): (v: seq<Option<u16>>)
    requires |pixels| == STRIP_PIXELS && |coverage| == STRIP_PIXELS / 8
    ensures |v| == STRIP_PIXELS
    ensures forall i | 0 <= i < STRIP_PIXELS :: v[i] == if Marked(coverage, i) then Some(pixels[i]) else None
  {
    seq(STRIP_PIXELS, i requires 0 <= i < STRIP_PIXELS => if Marked(coverage, i) then Some(pixels[i]) else None)
  }

  lemma NothingGathered(pixels: seq<u16>, coverage: seq<bv8>)
    requires |pixels| == STRIP_PIXELS && |coverage| == STRIP_PIXELS / 8 && forall i | 0 <= i < |coverage| :: coverage[i] == 0
    ensures Gathered(pixels, coverage) == seq(STRIP_PIXELS, _ => None) && CountSome(Gathered(pixels, coverage)) == 0
  {
    forall i | 0 <= i < STRIP_PIXELS ensures !Marked(coverage, i) {
      Position(i);
      BitClear(Low(i));
    }
    CountNone(Gathered(pixels, coverage));
  }

  function Mark(coverage: seq<bv8>, index: nat): (more: seq<bv8>)
    requires |coverage| == STRIP_PIXELS / 8 && index < STRIP_PIXELS
    ensures |more| == |coverage|
  {
    Position(index);
    coverage[Cell(index) := coverage[Cell(index)] | Mask(Low(index))]
  }

  lemma MarkSpelled(coverage: seq<bv8>, index: nat)
    requires |coverage| == STRIP_PIXELS / 8 && index < STRIP_PIXELS
    ensures Cell(index) < STRIP_PIXELS / 8
    ensures Marked(coverage, index) <==> coverage[Cell(index)] & Mask(Low(index)) != 0
    ensures Mark(coverage, index) == coverage[Cell(index) := coverage[Cell(index)] | Mask(Low(index))]
  {
    Position(index);
  }

  lemma MarkedNext(coverage: seq<bv8>, index: nat, i: nat)
    requires |coverage| == STRIP_PIXELS / 8 && index < STRIP_PIXELS && i < STRIP_PIXELS
    ensures Marked(Mark(coverage, index), i) <==> i == index || Marked(coverage, i)
  {
    hide Bit, Mask, Cell, Low;
    Position(i);
    Position(index);
    BitSet(coverage[Cell(index)], Low(index), Low(i));
  }

  lemma OneMoreGathered(pixels: seq<u16>, coverage: seq<bv8>, index: nat, p: u16)
    requires |pixels| == STRIP_PIXELS && |coverage| == STRIP_PIXELS / 8 && index < STRIP_PIXELS
    requires Gathered(pixels, coverage)[index].None?
    ensures Gathered(pixels[index := p], Mark(coverage, index)) == Gathered(pixels, coverage)[index := Some(p)]
  {
    hide Mark, Marked, Gathered;
    var v, w := Gathered(pixels, coverage), Gathered(pixels[index := p], Mark(coverage, index));
    forall i | 0 <= i < STRIP_PIXELS ensures w[i] == v[index := Some(p)][i] {
      MarkedNext(coverage, index, i);
    }
  }

  // ----- one flush into one strip

  function Column(i: nat): (x: nat)
    ensures x < WIDTH
  {
    i % WIDTH
  }

  function Row(i: nat): nat { i / WIDTH }

  lemma Place(i: nat)
    ensures i == WIDTH * Row(i) + Column(i)
    ensures i < STRIP_PIXELS ==> Row(i) < STRIP
  {
  }

  lemma PlaceOf(row: nat, column: nat)
    requires row < STRIP && column < WIDTH
    ensures row * WIDTH + column < STRIP_PIXELS && Row(row * WIDTH + column) == row && Column(row * WIDTH + column) == column
  {
  }

  predicate Before(i: nat, row: int, column: int) { Row(i) < row || (Row(i) == row && Column(i) < column) }

  /** The strip after the pixels of a flush that come before a place in reading order. */
  function MergedBefore(v: seq<Option<u16>>, f: Flush, stripY: nat, row: int, column: int): (w: seq<Option<u16>>)
    requires Backed(f)
    ensures |w| == |v|
  {
    seq(|v|, i requires 0 <= i < |v| => if Before(i, row, column) then Merge(v[i], f, Column(i), stripY + Row(i)) else v[i])
  }

  /** The strip after a whole flush: what is already there stays, and the flush fills in what it shows. */
  function Merged(v: seq<Option<u16>>, f: Flush, stripY: nat): (w: seq<Option<u16>>)
    requires Backed(f)
    ensures |w| == |v|
  {
    seq(|v|, i requires 0 <= i < |v| => Merge(v[i], f, Column(i), stripY + Row(i)))
  }

  predicate Skips(f: Flush, stripY: nat, i: nat) { !Shows(f, Column(i), stripY + Row(i)) }

  /** Places between two marks that the flush does not show make no difference. */
  lemma MergedSkips(v: seq<Option<u16>>, f: Flush, stripY: nat, row: int, column: int, row': int, column': int)
    requires Backed(f)
    requires forall i | 0 <= i < |v| && Before(i, row, column) != Before(i, row', column') :: Skips(f, stripY, i)
    ensures MergedBefore(v, f, stripY, row, column) == MergedBefore(v, f, stripY, row', column')
  {
    hide Column, Row;
  }

  lemma MergedOne(v: seq<Option<u16>>, f: Flush, stripY: nat, row: nat, x: nat)
    requires Backed(f) && |v| == STRIP_PIXELS && row < STRIP && Shows(f, x, stripY + row)
    ensures row * WIDTH + x < STRIP_PIXELS
    ensures var w, i := MergedBefore(v, f, stripY, row, x), row * WIDTH + x;
            MergedBefore(v, f, stripY, row, x + 1) == if w[i].Some? then w else w[i := Some(PixelOf(f, x, stripY + row))]
  {
    hide Column, Row, PixelOf;
    var i, w := row * WIDTH + x, MergedBefore(v, f, stripY, row, x);
    PlaceOf(row, x);
    var u := MergedBefore(v, f, stripY, row, x + 1);
    forall j | 0 <= j < STRIP_PIXELS ensures j != i ==> u[j] == w[j] {
      Place(j);
      Place(i);
    }
  }

  lemma MergedEnds(v: seq<Option<u16>>, f: Flush, stripY: nat, row: int)
    requires Backed(f) && |v| == STRIP_PIXELS && Accepted(f)
    ensures stripY + row <= f.y1 || row <= 0 ==> MergedBefore(v, f, stripY, row, 0) == v
    ensures row >= STRIP || stripY + row > f.y2 ==> MergedBefore(v, f, stripY, row, 0) == Merged(v, f, stripY)
    ensures MergedBefore(v, f, stripY, row, f.x1) == MergedBefore(v, f, stripY, row, 0)
    ensures MergedBefore(v, f, stripY, row, f.x2 + 1) == MergedBefore(v, f, stripY, row + 1, 0)
  {
    hide Column, Row, PixelOf;
    forall i | 0 <= i < STRIP_PIXELS ensures Row(i) < STRIP { Place(i); }
    MergedSkips(v, f, stripY, row, f.x1, row, 0);
    MergedSkips(v, f, stripY, row, f.x2 + 1, row + 1, 0);
  }

  class Stage {
    const pixels: array<u16>
    const coverage: array<bv8>
    var covered: nat

    ghost predicate Sized()
      reads this
    {
      pixels.Length == STRIP_PIXELS && coverage.Length == STRIP_PIXELS / 8
    }

    ghost function View(): (v: seq<Option<u16>>)
      requires Sized()
      reads this, pixels, coverage
      ensures |v| == STRIP_PIXELS
    {
      Gathered(pixels[..], coverage[..])
    }

    ghost predicate Valid()
      reads this, pixels, coverage
    {
      Sized() && covered == CountSome(View())
    }

    constructor ()
      ensures Valid() && View() == seq(STRIP_PIXELS, _ => None) && fresh(pixels) && fresh(coverage)
    {
      pixels := new u16[STRIP_PIXELS](_ => 0);
      coverage := new bv8[STRIP_PIXELS / 8](_ => 0);
      covered := 0;
      new;
      NothingGathered(pixels[..], coverage[..]);
    }

    method Clear()
      requires Sized()
      modifies this, pixels, coverage
      ensures Valid() && View() == seq(STRIP_PIXELS, _ => None)
    {
      forall i | 0 <= i < pixels.Length { pixels[i] := 0; }
      forall i | 0 <= i < coverage.Length { coverage[i] := 0; }
      covered := 0;
      NothingGathered(pixels[..], coverage[..]);
    }

    method Store(index: nat, p: u16)
      requires Sized() && index < STRIP_PIXELS
      modifies this, pixels, coverage
      ensures pixels[..] == old(pixels[..])[index := p] && coverage[..] == Mark(old(coverage[..]), index)
      ensures covered == old(covered) + 1
    {
      hide Mask, Cell, Low, Mark;
      MarkSpelled(coverage[..], index);
      pixels[index] := p;
      coverage[Cell(index)] := coverage[Cell(index)] | Mask(Low(index));
      covered := covered + 1;
    }

    method Put(index: nat, p: u16)
      requires Valid() && index < STRIP_PIXELS
      modifies this, pixels, coverage
      ensures Valid() && View() == if old(View())[index].Some? then old(View()) else old(View())[index := Some(p)]
    {
      hide Gathered, CountSome, Mask, Cell, Low, Marked, Mark;
      ghost var ps, cs := pixels[..], coverage[..];
      MarkSpelled(cs, index);
      if coverage[Cell(index)] & Mask(Low(index)) != 0 { return; }
      OneMoreGathered(ps, cs, index, p);
      CountOneMore(Gathered(ps, cs), index, p);
      Store(index, p);
    }
  
    /** The callback's loops over the part of the area inside the strip. */
    method PutFlush(f: Flush, stripY: nat)
      requires Valid() && Accepted(f) && Backed(f) && stripY + STRIP <= HEIGHT
      modifies this, pixels, coverage
      ensures Valid() && View() == Merged(old(View()), f, stripY)
    {
      hide MergedBefore, Merged, Gathered, CountSome;
      ghost var v := View();
      var first := if f.y1 > stripY then f.y1 else stripY;
      var last := if f.y2 < stripY + STRIP - 1 then f.y2 else stripY + STRIP - 1;
      var y := first;
      MergedEnds(v, f, stripY, y - stripY);
      while y <= last
        invariant first <= y && (first <= last ==> y <= last + 1) && Valid()
        invariant View() == MergedBefore(v, f, stripY, y - stripY, 0)
        decreases last - y
      {
        PutRow(v, f, stripY, y);
        y := y + 1;
      }
      MergedEnds(v, f, stripY, y - stripY);
    }

    method PutRow(ghost v: seq<Option<u16>>, f: Flush, stripY: nat, y: nat)
      requires Valid() && Accepted(f) && Backed(f) && |v| == STRIP_PIXELS
      requires stripY <= y < stripY + STRIP && f.y1 <= y <= f.y2
      requires View() == MergedBefore(v, f, stripY, y - stripY, 0)
      modifies this, pixels, coverage
      ensures Valid() && View() == MergedBefore(v, f, stripY, y - stripY + 1, 0)
    {
      hide MergedBefore, Merged, Gathered, CountSome;
      MergedEnds(v, f, stripY, y - stripY);
      var x := f.x1;
      while x <= f.x2
        invariant f.x1 <= x <= f.x2 + 1 && Valid()
        invariant View() == MergedBefore(v, f, stripY, y - stripY, x)
      {
        PutPixel(v, f, stripY, y, x);
        x := x + 1;
      }
    }

    method PutPixel(ghost v: seq<Option<u16>>, f: Flush, stripY: nat, y: nat, x: nat)
      requires Valid() && Accepted(f) && Backed(f) && |v| == STRIP_PIXELS
      requires stripY <= y < stripY + STRIP && Shows(f, x, y) && View() == MergedBefore(v, f, stripY, y - stripY, x)
      modifies this, pixels, coverage
      ensures Valid() && View() == MergedBefore(v, f, stripY, y - stripY, x + 1)
    {
      hide MergedBefore, Gathered, CountSome, Shows, Accepted, Backed, PixelOf;
      MergedOne(v, f, stripY, y - stripY, x);
      Put((y - stripY) * WIDTH + x, PixelOf(f, x, y));
    }
  }

  // ----- strips into flash

  predicate AllBacked(flushes: seq<Flush>) { forall f | f in flushes :: Backed(f) }

  /** Each place of the strip holds what the first flush to show it showed. */
  predicate Gathers(v: seq<Option<u16>>, seen: seq<Flush>, stripY: nat) {
    |v| == STRIP_PIXELS && AllBacked(seen) && forall i | 0 <= i < STRIP_PIXELS :: v[i] == First(seen, Column(i), stripY + Row(i))
  }

  predicate Full(v: seq<Option<u16>>) { forall i | 0 <= i < |v| :: v[i].Some? }

  lemma GathersNothing(stripY: nat)
    ensures Gathers(seq(STRIP_PIXELS, _ => None), [], stripY)
  {
  }

  lemma GathersNext(v: seq<Option<u16>>, seen: seq<Flush>, stripY: nat, f: Flush)
    requires Gathers(v, seen, stripY) && Backed(f)
    ensures Gathers(Merged(v, f, stripY), seen + [f], stripY)
  {
    hide Column, Row, Merge;
    assert (seen + [f])[..|seen|] == seen;
  }

  function Program(cells: seq<u16>, at: nat, data: seq<u16>): (after: seq<u16>)
    requires at + |data| <= |cells|
    ensures |after| == |cells|
  {
    seq(|cells|, i requires 0 <= i < |cells| => if at <= i < at + |data| then Bits.And(cells[i], data[i - at]) else cells[i])
  }

  lemma ProgramErased(p: u16)
    ensures Bits.And(ERASED, p) == p
  {
    assert Bits.Pow2(16) == 0x1_0000 by {
      assert Bits.Pow2(4) == 16;
      assert Bits.Pow2(8) == 16 * Bits.Pow2(4) by { assert Bits.Pow2(6) == 4 * Bits.Pow2(4); }
      assert Bits.Pow2(12) == 16 * Bits.Pow2(8) by { assert Bits.Pow2(10) == 4 * Bits.Pow2(8); }
      assert Bits.Pow2(16) == 16 * Bits.Pow2(12) by { assert Bits.Pow2(14) == 4 * Bits.Pow2(12); }
    }
    Bits.AndOnes(p, 16);
  }

  predicate Blank(flash: seq<u16>, from: nat) { forall i | from <= i < |flash| :: flash[i] == ERASED }

  function PixelAt(flash: seq<u16>, k: nat, i: nat): u16
    requires |flash| >= FRAME_PIXELS && k < 8 && i < STRIP_PIXELS
  {
    flash[k * STRIP_PIXELS + i]
  }

  /** One strip of flash shows the first flush of each pixel since the strip was armed. */
  predicate StripShown(flash: seq<u16>, flushes: seq<Flush>, k: nat) {
    |flash| == REGION_PIXELS && k < 8 && AllBacked(flushes) &&
    forall i | 0 <= i < STRIP_PIXELS :: Some(PixelAt(flash, k, i)) == First(flushes, Column(i), k * STRIP + Row(i))
  }

  predicate Shown(flash: seq<u16>, done: seq<seq<Flush>>) {
    |flash| == REGION_PIXELS && |done| <= 8 && forall k | 0 <= k < |done| :: StripShown(flash, done[k], k)
  }

  function Values(v: seq<Option<u16>>): (p: seq<u16>)
    requires Full(v)
    ensures |p| == |v|
  {
    seq(|v|, i requires 0 <= i < |v| => v[i].value)
  }

  lemma StripWritten(flash: seq<u16>, v: seq<Option<u16>>, seen: seq<Flush>, k: nat)
    requires |flash| == REGION_PIXELS && k < 8 && Blank(flash, k * STRIP_PIXELS) && Gathers(v, seen, k * STRIP) && Full(v)
    ensures StripShown(Program(flash, k * STRIP_PIXELS, Values(v)), seen, k)
    ensures Blank(Program(flash, k * STRIP_PIXELS, Values(v)), (k + 1) * STRIP_PIXELS)
  {
    hide Bits.And, Column, Row, First;
    var at := k * STRIP_PIXELS;
    var after := Program(flash, at, Values(v));
    forall i | 0 <= i < STRIP_PIXELS ensures Some(PixelAt(after, k, i)) == First(seen, Column(i), k * STRIP + Row(i)) {
      ProgramErased(v[i].value);
      assert flash[at + i] == ERASED;
    }
  }

  lemma ShownNext(flash: seq<u16>, done: seq<seq<Flush>>, v: seq<Option<u16>>, seen: seq<Flush>)
    requires Shown(flash, done) && |done| < 8 && Blank(flash, |done| * STRIP_PIXELS)
    requires Gathers(v, seen, |done| * STRIP) && Full(v) && |v| == STRIP_PIXELS
    ensures |flash| == REGION_PIXELS
    ensures Shown(Program(flash, |done| * STRIP_PIXELS, Values(v)), done + [seen])
    ensures Blank(Program(flash, |done| * STRIP_PIXELS, Values(v)), (|done| + 1) * STRIP_PIXELS)
  {
    hide Bits.And, Column, Row, First, Gathers, Full;
    var n := |done|;
    StripWritten(flash, v, seen, n);
    var after := Program(flash, n * STRIP_PIXELS, Values(v));
    forall k | 0 <= k < n ensures StripShown(after, done[k], k) {
      forall i | 0 <= i < STRIP_PIXELS ensures PixelAt(after, k, i) == PixelAt(flash, k, i) {}
    }
  }

  lemma PixelsRead(pixels: seq<u16>, coverage: seq<bv8>)
    requires |pixels| == STRIP_PIXELS && |coverage| == STRIP_PIXELS / 8 && Full(Gathered(pixels, coverage))
    ensures Values(Gathered(pixels, coverage)) == pixels
  {
    hide Marked;
    var v := Gathered(pixels, coverage);
    forall i | 0 <= i < STRIP_PIXELS ensures Values(v)[i] == pixels[i] { assert v[i].Some?; }
  }

  lemma StartShown(flash: seq<u16>)
    requires flash == seq(REGION_PIXELS, _ => ERASED)
    ensures Shown(flash, []) && Blank(flash, 0)
  {
  }

  datatype Strip = Disarmed | Collecting | Complete
  datatype Phase = Idle | Busy | Ready | Error

  /** What a capture holds on to between calls. */
  datatype Held = Held(phase: Phase, staged: bool, observer: bool)

  function Released(h: Held, lock: bool): Held { if (h.staged || h.observer) && !lock then h else Held(Idle, false, false) }

  /** What the platform answers to a start: the flash that was found suits, there is memory, it could be erased, the
      observer could be registered, and the three times the display lock is asked for. */
  datatype Platform = Platform(suits: bool, memory: bool, erased: bool, registered: bool, lock0: bool, lock1: bool, lock2: bool)

  predicate Starts(h: Held, p: Platform) {
    h.phase != Busy && (p.lock0 || !(h.staged || h.observer)) && p.suits && p.memory && p.erased && p.lock1 && p.registered && p.lock2
  }

  function Started(h: Held, p: Platform): Held {
    if h.phase == Busy || ((h.staged || h.observer) && !p.lock0) then h
    else if !p.suits || !p.memory || !p.erased || !p.lock1 then Held(Idle, false, false)
    else if !p.registered then Held(Idle, !p.lock2, false)
    else Held(if p.lock2 then Busy else Error, true, true)
  }

  /** What becomes of a capture that has stored this many strips. */
  function AfterStrip(stored: nat, lock: bool, maps: bool): Phase {
    if !lock then Error else if stored < 8 then Busy else if maps then Ready else Error
  }

  function DeadlineFrom(now: nat, armed: nat): nat { (if armed > now then armed else now) + 3000 }

  class Capture {
    const stage: Stage
    var staged: bool
    var observer: bool
    var stripY: nat
    var strip: Strip
    var phase: Phase
    var deadline: nat
    var mapped: bool
    var flash: seq<u16>
    /** The flushes taken since the current strip was armed, and those of each finished strip. */
    ghost var seen: seq<Flush>
    ghost var done: seq<seq<Flush>>

    ghost predicate Staging()
      reads this, stage, stage.pixels, stage.coverage
    {
      stage.Valid() && (observer ==> staged) &&
      (strip != Disarmed ==> staged && Gathers(stage.View(), seen, stripY) && stripY + STRIP <= HEIGHT &&
                             (strip == Complete <==> Full(stage.View())))
    }

    ghost predicate Progress()
      reads this
    {
      (phase == Busy ==> staged && observer && strip != Disarmed && |done| < 8 && stripY == |done| * STRIP &&
                         Shown(flash, done) && Blank(flash, |done| * STRIP_PIXELS)) &&
      (phase == Ready ==> mapped && |done| == 8 && Shown(flash, done))
    }

    ghost predicate Valid()
      reads this, stage, stage.pixels, stage.coverage
    {
      Staging() && Progress()
    }

    constructor (region: seq<u16>)
      ensures Valid() && Holds() == NEW_TRACE.held && strip == Disarmed && flash == region
      ensures fresh(stage) && fresh(stage.pixels) && fresh(stage.coverage)
    {
      stage := new Stage();
      staged, observer, stripY, strip, phase, deadline, mapped := false, false, 0, Disarmed, Idle, 0, false;
      flash, seen, done := region, [], [];
    }

    function Holds(): Held
      reads this
    {
      Held(phase, staged, observer)
    }

    /** The display's flush callback. */
    method OnFlush(f: Flush)
      requires Staging() && observer && Backed(f)
      modifies this`strip, this`seen, stage, stage.pixels, stage.coverage
      ensures Staging() && (old(Progress()) ==> Progress())
      ensures old(strip) != Collecting || !Accepted(f) ==> strip == old(strip) && seen == old(seen) && stage.View() == old(stage.View())
      ensures old(strip) == Collecting && Accepted(f) ==>
                seen == old(seen) + [f] && stage.View() == Merged(old(stage.View()), f, stripY) &&
                strip == if Full(stage.View()) then Complete else Collecting
    {
      hide Gathers, Merged, Gathered, Shown, Blank, CountSome, Accepted, Backed;
      if strip != Collecting { return; }
      if !Accepted(f) { return; }
      GathersNext(stage.View(), seen, stripY, f);
      stage.PutFlush(f, stripY);
      seen := seen + [f];
      CountAll(stage.View());
      if stage.covered == STRIP_PIXELS { strip := Complete; }
    }

    method Arm(now: nat, armed: nat, lock: bool) returns (ok: bool)
      requires Staging() && staged && stripY + STRIP <= HEIGHT
      modifies this`strip, this`seen, this`deadline, stage, stage.pixels, stage.coverage
      ensures Staging() && ok == lock
      ensures ok ==> strip == Collecting && seen == [] && deadline == DeadlineFrom(now, armed)
      ensures !ok ==> strip == old(strip) && seen == old(seen) && deadline == old(deadline) && stage.View() == old(stage.View())
    {
      hide Gathered, CountSome;
      if !lock { return false; }
      strip := Disarmed;
      stage.Clear();
      GathersNothing(stripY);
      seen := [];
      strip := Collecting;
      deadline := (if armed > now then armed else now) + 3000;
      assert stage.View()[0].None?;
      ok := true;
    }

    method Release(lock: bool) returns (ok: bool)
      requires Valid()
      modifies this`strip, this`observer, this`staged, this`mapped, this`phase
      ensures Valid() && ok == (lock || !(old(staged) || old(observer)))
      ensures Holds() == Released(old(Holds()), lock)
      ensures if ok then !mapped && (strip == Disarmed || strip == old(strip)) else mapped == old(mapped) && strip == old(strip)
    {
      hide Gathers, Shown, Blank, Full;
      if staged || observer {
        if !lock { return false; }
        strip := Disarmed;
        observer := false;
        staged := false;
      }
      mapped := false;
      phase := Idle;
      ok := true;
    }

    /** left is what an erase that fails leaves in flash. */
    method Start(now: nat, armed: nat, p: Platform, left: seq<u16>) returns (ok: bool)
      requires Valid()
      modifies this, stage, stage.pixels, stage.coverage
      ensures Valid() && Holds() == Started(old(Holds()), p) && ok == Starts(old(Holds()), p)
      ensures ok ==> strip == Collecting && stripY == 0 && seen == [] && done == [] && deadline == DeadlineFrom(now, armed)
      ensures old(phase) == Busy ==>
                flash == old(flash) && done == old(done) && stripY == old(stripY) && strip == old(strip) && seen == old(seen) &&
                deadline == old(deadline) && stage.View() == old(stage.View())
      ensures old(phase) == Ready && phase == Ready ==> flash == old(flash) && done == old(done)
    {
      hide Gathers, Shown, Blank, Full, Gathered, CountSome, Marked;
      if phase == Busy { return false; }
      var released := Release(p.lock0);
      if !released || !p.suits || !p.memory { return false; }
      if !p.erased {
        flash := left;
        return false;
      }
      flash := seq(REGION_PIXELS, _ => ERASED);
      if !p.lock1 { return false; }
      staged := true;
      if !p.registered {
        released := Release(p.lock2);
        return false;
      }
      ok := FirstStrip(now, armed, p.lock2);
    }

    method FirstStrip(now: nat, armed: nat, lock: bool) returns (ok: bool)
      requires stage.Valid() && staged && strip == Disarmed && flash == seq(REGION_PIXELS, _ => ERASED)
      modifies this, stage, stage.pixels, stage.coverage
      ensures Valid() && Holds() == Held(if lock then Busy else Error, true, true) && ok == lock
      ensures ok ==> strip == Collecting && stripY == 0 && seen == [] && done == [] && deadline == DeadlineFrom(now, armed)
    {
      hide Gathers, Shown, Blank, Full, Gathered, CountSome, Marked;
      observer := true;
      stripY := 0;
      done := [];
      phase := Error;
      ok := Arm(now, armed, lock);
      StartShown(flash);
      if ok { phase := Busy; }
    }

    /** The strip goes to flash as the staging buffer holds it, whatever the display flushes meanwhile. */
    method ProgramStrip(during: seq<Flush>, written: bool, torn: seq<u16>)
      requires Staging() && observer && strip == Disarmed && AllBacked(during)
      requires |done| < 8 && stripY == |done| * STRIP && Shown(flash, done) && Blank(flash, |done| * STRIP_PIXELS)
      requires Gathers(stage.View(), seen, stripY) && Full(stage.View())
      modifies this`strip, this`seen, this`flash, this`done, this`phase, stage, stage.pixels, stage.coverage
      ensures Staging() && strip == Disarmed && stage.View() == old(stage.View())
      ensures written ==> done == old(done) + [old(seen)] && Shown(flash, done) && Blank(flash, |done| * STRIP_PIXELS)
      ensures written ==> phase == old(phase)
      ensures !written ==> done == old(done) && phase == Error
    {
      hide Gathers, Shown, Blank, Full, Gathered, Program, Values, Merged;
      for i := 0 to |during|
        invariant Staging() && strip == Disarmed && stage.View() == old(stage.View()) && seen == old(seen)
        invariant done == old(done) && flash == old(flash) && phase == old(phase)
      {
        assert during[i] in during;
        OnFlush(during[i]);
      }
      if !written {
        flash := torn;
        phase := Error;
        return;
      }
      PixelsRead(stage.pixels[..], stage.coverage[..]);
      ShownNext(flash, done, stage.View(), seen);
      flash := Program(flash, stripY * WIDTH, stage.pixels[..]);
      done := done + [seen];
    }

    method NextStrip(now: nat, armed: nat, lock: bool, maps: bool)
      requires Staging() && staged && observer && strip == Disarmed && phase == Busy
      requires |done| <= 8 && stripY == |done| * STRIP && Shown(flash, done) && (|done| < 8 ==> Blank(flash, |done| * STRIP_PIXELS))
      modifies this`strip, this`seen, this`deadline, this`phase, this`observer, this`staged, this`mapped
      modifies stage, stage.pixels, stage.coverage
      ensures Valid()
      ensures Holds() == Held(AfterStrip(|done|, lock, maps), |done| < 8 || !lock, |done| < 8 || !lock)
      ensures phase == Busy ==> strip == Collecting && seen == [] && deadline == DeadlineFrom(now, armed)
    {
      hide Gathers, Shown, Blank, Full, Gathered;
      if stripY < HEIGHT {
        var ok := Arm(now, armed, lock);
        if !ok { phase := Error; }
        return;
      }
      if !lock {
        phase := Error;
        return;
      }
      observer := false;
      staged := false;
      if !maps {
        phase := Error;
        return;
      }
      mapped := true;
      phase := Ready;
    }

    /** One poll. Flushes may keep arriving while the strip is being programmed: they find it disarmed. A complete strip
        is filed with the flushes it was gathered from, and the next one starts from none. */
    method Poll(now: nat, armed: nat, lock: bool, during: seq<Flush>, written: bool, torn: seq<u16>, maps: bool)
      requires Valid() && AllBacked(during)
      modifies this, stage, stage.pixels, stage.coverage
      ensures Valid()
      ensures old(phase) != Busy ==> Holds() == old(Holds()) && flash == old(flash) && done == old(done)
      ensures old(phase) == Busy && old(strip) == Collecting ==>
                Holds() == Held(if now >= old(deadline) then Error else Busy, true, true) && flash == old(flash) && done == old(done) &&
                seen == old(seen) && strip == Collecting && stripY == old(stripY) && deadline == old(deadline)
      ensures old(phase) == Busy && old(strip) == Complete ==>
                phase == (if written then AfterStrip(|old(done)| + 1, lock, maps) else Error) &&
                staged == observer == (!written || |old(done)| < 7 || !lock)
      ensures old(phase) == Busy && old(strip) == Complete && phase != Error ==> done == old(done) + [old(seen)]
      ensures old(phase) == Busy && old(strip) == Complete && phase == Busy ==>
                strip == Collecting && seen == [] && stripY == old(stripY) + STRIP && deadline == DeadlineFrom(now, armed)
    {
      hide Gathers, Shown, Blank, Full, Gathered, Program, Values;
      if phase != Busy { return; }
      if strip != Complete {
        if now >= deadline { phase := Error; }
        return;
      }
      strip := Disarmed;
      ProgramStrip(during, written, torn);
      if !written { return; }
      stripY := stripY + STRIP;
      NextStrip(now, armed, lock, maps);
    }

    /** A capture that is ready holds, for every pixel of the screen, the first one flushed after its strip was armed. */
    method Pixels() returns (p: Option<seq<u16>>)
      requires Valid()
      ensures p.Some? <==> phase == Ready
      ensures p.Some? ==> |p.value| == FRAME_PIXELS && |done| == 8 && forall k | 0 <= k < 8 :: AllBacked(done[k])
      ensures p.Some? ==>
                forall k, i | 0 <= k < 8 && 0 <= i < STRIP_PIXELS ::
                  Some(PixelAt(p.value, k, i)) == First(done[k], Column(i), k * STRIP + Row(i))
    {
      hide First, Column, Row;
      if phase != Ready { return None; }
      p := Some(flash[..FRAME_PIXELS]);
      forall k | 0 <= k < 8 ensures StripShown(flash, done[k], k) {}
    }
  }

  // ----- runs

  datatype Op =
    | DoStart(now: nat, armed: nat, platform: Platform, left: seq<u16>)
    | DoFlush(flush: Flush)
    | DoPoll(now: nat, armed: nat, lock: bool, during: seq<Flush>, written: bool, torn: seq<u16>, maps: bool)
    | DoRelease(lock: bool)

  predicate OpOk(op: Op) {
    match op
    case DoFlush(f) => Backed(f)
    case DoPoll(_, _, _, during, _, _, _) => AllBacked(during)
    case _ => true
  }

  /** A capture by its history alone: segments[k] are all flushes that came since strip k was armed and before the next
      strip was. */
  datatype Trace = Trace(held: Held, deadline: nat, segments: seq<seq<Flush>>)

  const NEW_TRACE := Trace(Held(Idle, false, false), 0, [])

  predicate TraceOk(t: Trace) {
    (forall s | s in t.segments :: AllBacked(s)) && (t.held.phase == Busy ==> 1 <= |t.segments| <= 8) && (t.held.phase == Ready ==> |t.segments| == 8)
  }

  /** Every pixel of strip k was shown by one of these flushes. */
  predicate Covers(flushes: seq<Flush>, k: nat)
    requires AllBacked(flushes)
  {
    forall i | 0 <= i < STRIP_PIXELS :: First(flushes, Column(i), k * STRIP + Row(i)).Some?
  }

  function Extend(segments: seq<seq<Flush>>, more: seq<Flush>): (longer: seq<seq<Flush>>)
    requires segments != []
    ensures |longer| == |segments|
  {
    segments[..|segments| - 1] + [segments[|segments| - 1] + more]
  }

  lemma ExtendBacked(segments: seq<seq<Flush>>, more: seq<Flush>)
    requires segments != [] && AllBacked(more) && forall s | s in segments :: AllBacked(s)
    ensures forall s | s in Extend(segments, more) :: AllBacked(s)
  {
    var last := segments[|segments| - 1];
    assert last in segments && forall s | s in segments[..|segments| - 1] :: s in segments;
    assert AllBacked(last + more);
  }

  /** One operation, as the history sees it. */
  function Follow(t: Trace, op: Op): (u: Trace)
    requires TraceOk(t) && OpOk(op)
    ensures TraceOk(u)
  {
    match op
    case DoStart(now, armed, platform, _) =>
      if Starts(t.held, platform) then Trace(Started(t.held, platform), DeadlineFrom(now, armed), [[]])
      else t.(held := Started(t.held, platform))
    case DoFlush(f) =>
      if t.held.phase != Busy then t
      else
        ExtendBacked(t.segments, [f]);
        t.(segments := Extend(t.segments, [f]))
    case DoPoll(now, armed, lock, during, written, _, maps) =>
      if t.held.phase != Busy then t
      else
        var k := |t.segments| - 1;
        assert t.segments[k] in t.segments;
        if !Covers(t.segments[k], k) then (if now >= t.deadline then t.(held := t.held.(phase := Error)) else t)
        else if !written then t.(held := Held(Error, true, true))
        else
          ExtendBacked(t.segments, during);
          var more := Extend(t.segments, during);
          var phase := AfterStrip(k + 1, lock, maps);
          var holding := k < 7 || !lock;
          if phase == Busy then Trace(Held(Busy, true, true), DeadlineFrom(now, armed), more + [[]])
          else Trace(Held(phase, holding, holding), t.deadline, more)
    case DoRelease(lock) => t.(held := Released(t.held, lock))
  }

  function After(ops: seq<Op>): (t: Trace)
    requires forall op | op in ops :: OpOk(op)
    ensures TraceOk(t)
  {
    if ops == [] then NEW_TRACE
    else
      assert ops[|ops| - 1] in ops && forall op | op in ops[..|ops| - 1] :: op in ops;
      Follow(After(ops[..|ops| - 1]), ops[|ops| - 1])
  }

  /** For every pixel of the strip the two lists have the same first flush. */
  predicate Alike(a: seq<Flush>, b: seq<Flush>, k: nat) {
    AllBacked(a) && AllBacked(b) &&
    forall i | 0 <= i < STRIP_PIXELS :: First(a, Column(i), k * STRIP + Row(i)) == First(b, Column(i), k * STRIP + Row(i))
  }

  predicate AllAlike(done: seq<seq<Flush>>, segments: seq<seq<Flush>>) {
    |done| <= |segments| && forall k | 0 <= k < |done| :: Alike(done[k], segments[k], k)
  }

  ghost predicate Mirrors(c: Capture, t: Trace)
    reads c
  {
    TraceOk(t) && c.Holds() == t.held &&
    (c.phase == Busy ==> c.deadline == t.deadline && |t.segments| == |c.done| + 1 && AllAlike(c.done + [c.seen], t.segments)) &&
    (c.phase == Ready ==> |t.segments| == |c.done| && AllAlike(c.done, t.segments))
  }

  lemma {:induction false} FirstStays(a: seq<Flush>, more: seq<Flush>, x: int, y: int)
    requires AllBacked(a) && AllBacked(more) && First(a, x, y).Some?
    ensures AllBacked(a + more) && First(a + more, x, y) == First(a, x, y)
    decreases |more|
  {
    if more == [] {
      assert a + more == a;
    } else {
      var n := |more| - 1;
      assert more[n] in more && (forall f | f in more[..n] :: f in more) && (a + more)[..|a + more| - 1] == a + more[..n];
      FirstStays(a, more[..n], x, y);
    }
  }

  lemma FirstNext(a: seq<Flush>, f: Flush, x: int, y: int)
    requires AllBacked(a) && Backed(f)
    ensures AllBacked(a + [f]) && First(a + [f], x, y) == Merge(First(a, x, y), f, x, y)
  {
    assert (a + [f])[..|a|] == a;
  }

  /** Flushes that come once the strip is covered change nothing in it. */
  lemma CoveredStays(a: seq<Flush>, b: seq<Flush>, more: seq<Flush>, k: nat)
    requires Alike(a, b, k) && Covers(b, k) && AllBacked(more)
    ensures Alike(a, b + more, k) && Covers(b + more, k)
  {
    hide First, Column, Row;
    forall i | 0 <= i < STRIP_PIXELS
      ensures AllBacked(b + more) && First(b + more, Column(i), k * STRIP + Row(i)) == First(b, Column(i), k * STRIP + Row(i))
    {
      FirstStays(b, more, Column(i), k * STRIP + Row(i));
    }
    assert AllBacked(b + more);
  }

  lemma FlushAlike(a: seq<Flush>, b: seq<Flush>, f: Flush, k: nat)
    requires Alike(a, b, k) && Backed(f)
    ensures Alike(a + [f], b + [f], k) && (!Accepted(f) ==> Alike(a, b + [f], k))
  {
    hide First, Column, Row;
    forall i | 0 <= i < STRIP_PIXELS
      ensures First(a + [f], Column(i), k * STRIP + Row(i)) == First(b + [f], Column(i), k * STRIP + Row(i))
      ensures !Accepted(f) ==> First(b + [f], Column(i), k * STRIP + Row(i)) == First(b, Column(i), k * STRIP + Row(i))
    {
      FirstNext(a, f, Column(i), k * STRIP + Row(i));
      FirstNext(b, f, Column(i), k * STRIP + Row(i));
    }
    assert AllBacked(a + [f]) && AllBacked(b + [f]);
  }

  /** The staging buffer is full exactly when the history covers the strip. */
  lemma FullIsCovered(v: seq<Option<u16>>, seen: seq<Flush>, segment: seq<Flush>, k: nat)
    requires Gathers(v, seen, k * STRIP) && Alike(seen, segment, k)
    ensures Full(v) <==> Covers(segment, k)
  {
    hide First, Column, Row;
    if Full(v) {
      forall i | 0 <= i < STRIP_PIXELS ensures First(segment, Column(i), k * STRIP + Row(i)).Some? { assert v[i].Some?; }
    }
  }

  /** Only the last segment grows, by flushes its strip ignores or has just taken. */
  lemma LastReplaced(done: seq<seq<Flush>>, seen: seq<Flush>, seen': seq<Flush>, segments: seq<seq<Flush>>, more: seq<Flush>)
    requires |segments| == |done| + 1 && AllAlike(done + [seen], segments)
    requires Alike(seen', segments[|done|] + more, |done|)
    ensures AllAlike(done + [seen'], Extend(segments, more))
  {
    hide Alike;
    var a, b, n := done + [seen'], Extend(segments, more), |done|;
    forall k | 0 <= k < |a| ensures Alike(a[k], b[k], k) {
      if k < n {
        assert (done + [seen])[k] == done[k] && b[k] == segments[k];
        assert Alike((done + [seen])[k], segments[k], k);
      }
    }
  }

  lemma LastAlike(done: seq<seq<Flush>>, seen: seq<Flush>, segments: seq<seq<Flush>>)
    requires |segments| == |done| + 1 && AllAlike(done + [seen], segments)
    ensures Alike(seen, segments[|done|], |done|)
  {
    assert (done + [seen])[|done|] == seen;
  }

  method ExecuteFlush(c: Capture, f: Flush, ghost t: Trace)
    requires c.Valid() && Mirrors(c, t) && Backed(f)
    modifies c`strip, c`seen, c.stage, c.stage.pixels, c.stage.coverage
    ensures c.Valid() && Mirrors(c, Follow(t, DoFlush(f)))
  {
    hide Gathers, Shown, Blank, Alike, AllAlike, Merged, Gathered, Full, Covers, CountSome;
    ghost var done, seen, n := c.done, c.seen, |c.done|;
    if c.phase == Busy {
      LastAlike(done, seen, t.segments);
      FullIsCovered(c.stage.View(), seen, t.segments[n], n);
      FlushAlike(seen, t.segments[n], f, n);
      if c.strip == Complete { CoveredStays(seen, t.segments[n], [f], n); }
    }
    if c.observer { c.OnFlush(f); }
    if c.phase == Busy { LastReplaced(done, seen, c.seen, t.segments, [f]); }
  }

  method ExecutePoll(c: Capture, op: Op, ghost t: Trace)
    requires c.Valid() && Mirrors(c, t) && op.DoPoll? && OpOk(op)
    modifies c, c.stage, c.stage.pixels, c.stage.coverage
    ensures c.Valid() && Mirrors(c, Follow(t, op))
  {
    hide Gathers, Shown, Blank, Alike, AllAlike, Gathered, Full, Covers, CountSome;
    ghost var done, seen, n := c.done, c.seen, |c.done|;
    if c.phase == Busy {
      LastAlike(done, seen, t.segments);
      FullIsCovered(c.stage.View(), seen, t.segments[n], n);
      if c.strip == Complete {
        CoveredStays(seen, t.segments[n], op.during, n);
        LastReplaced(done, seen, seen, t.segments, op.during);
        NoneSeen(done + [seen], Extend(t.segments, op.during));
      }
    }
    c.Poll(op.now, op.armed, op.lock, op.during, op.written, op.torn, op.maps);
  }

  lemma NoneSeen(done: seq<seq<Flush>>, segments: seq<seq<Flush>>)
    requires |done| == |segments| && AllAlike(done, segments)
    ensures AllAlike(done + [[]], segments + [[]])
  {
    hide Column, Row;
    var a, b := done + [[]], segments + [[]];
    forall k | 0 <= k < |a| ensures Alike(a[k], b[k], k) {
      if k < |done| { assert Alike(done[k], segments[k], k); }
    }
  }

  method Execute(c: Capture, op: Op, ghost t: Trace)
    requires c.Valid() && Mirrors(c, t) && OpOk(op)
    modifies c, c.stage, c.stage.pixels, c.stage.coverage
    ensures c.Valid() && Mirrors(c, Follow(t, op))
  {
    hide Gathers, Shown, Blank, Alike, AllAlike, Gathered, Full, Covers, CountSome, Merged;
    match op
    case DoStart(now, armed, platform, left) =>
      var ok := c.Start(now, armed, platform, left);
      if ok { NoneSeenYet(c.done); }
    case DoFlush(f) => ExecuteFlush(c, f, t);
    case DoPoll(_, _, _, _, _, _, _) => ExecutePoll(c, op, t);
    case DoRelease(lock) => var ok := c.Release(lock);
  }

  lemma NoneSeenYet(none: seq<seq<Flush>>)
    requires none == []
    ensures AllAlike(none + [[]], [[]])
  {
    NoneSeen(none, none);
    assert none + [[]] == [[]];
  }

  /** Over any run of starts, flushes, polls and releases: the capture is in the state its history says, and when it is
      ready every pixel of the picture is the first one flushed for its place after its strip was armed. */
  method Run(region: seq<u16>, ops: seq<Op>) returns (c: Capture, pixels: Option<seq<u16>>)
    requires forall op | op in ops :: OpOk(op)
    ensures c.Holds() == After(ops).held
    ensures pixels.Some? <==> After(ops).held.phase == Ready
    ensures pixels.Some? ==>
              |pixels.value| == FRAME_PIXELS && |After(ops).segments| == 8 &&
              forall k, i | 0 <= k < 8 && 0 <= i < STRIP_PIXELS ::
                AllBacked(After(ops).segments[k]) &&
                Some(PixelAt(pixels.value, k, i)) == First(After(ops).segments[k], Column(i), k * STRIP + Row(i))
  {
    hide Follow, First, Column, Row, Covers, TraceOk;
    c := new Capture(region);
    NothingCaptured();
    for n := 0 to |ops|
      invariant c.Valid() && fresh(c) && fresh(c.stage) && fresh(c.stage.pixels) && fresh(c.stage.coverage)
      invariant (forall op | op in ops[..n] :: OpOk(op)) && Mirrors(c, After(ops[..n]))
    {
      assert ops[n] in ops;
      Execute(c, ops[n], After(ops[..n]));
      assert ops[..n + 1][..n] == ops[..n] && ops[..n + 1][n] == ops[n];
    }
    assert ops[..|ops|] == ops;
    pixels := c.Pixels();
    if pixels.Some? {
      forall k | 0 <= k < 8 ensures Alike(c.done[k], After(ops).segments[k], k) {}
    }
  }

  lemma NothingCaptured()
    ensures After([]) == NEW_TRACE && TraceOk(NEW_TRACE)
  {
  }

  // ----- deadlines

  /** A strip has three seconds from the moment it was armed: a poll that comes later and finds pixels missing fails the capture,
      and an earlier one waits. */
  lemma StripTimesOut(t: Trace, now: nat, lock: bool, during: seq<Flush>, written: bool, torn: seq<u16>, maps: bool)
    requires TraceOk(t) && AllBacked(during) && t.held.phase == Busy
    requires t.segments[|t.segments| - 1] in t.segments && !Covers(t.segments[|t.segments| - 1], |t.segments| - 1)
    ensures Follow(t, DoPoll(now, 0, lock, during, written, torn, maps)) ==
              if now >= t.deadline then t.(held := Held(Error, t.held.staged, t.held.observer)) else t
  {
    hide Covers, First;
  }

  lemma DeadlinesRun(t: Trace, now: nat, armed: nat, p: Platform, left: seq<u16>)
    requires TraceOk(t)
    ensures Starts(t.held, p) ==>
              var u := Follow(t, DoStart(now, armed, p, left));
              u.deadline >= now + 3000 && u.deadline >= armed + 3000 && (u.deadline == now + 3000 || u.deadline == armed + 3000) &&
              u.held.phase == Busy && u.segments == [[]]
  {
  }

  /** A capture that is already running, or whose resources cannot be let go, is not started over; otherwise it is exactly when
      the platform provides everything. */
  lemma StartsExactly(h: Held, p: Platform)
    ensures Starts(h, p) <==> Started(h, p).phase == Busy && h.phase != Busy
    ensures h.phase == Busy || ((h.staged || h.observer) && !p.lock0) ==> Started(h, p) == h
  {
  }
}
