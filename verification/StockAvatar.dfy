/** Row decoding of the built-in avatars: the five row filters of section 6 of RFC 2083 undone in place, and rows assembled
    from inflate output of any granularity. */
module StockAvatar {
  import opened Bytes

  const WIDTH := 96
  const HEIGHT := 156

  function Abs(x: int): nat { if x < 0 then -x else x }

  function Paeth(a: byte, b: byte, c: byte): (r: byte) {
    var p: int := a as int + b as int - c as int;
    var da, db, dc := Abs(p - a), Abs(p - b), Abs(p - c);
    if da <= db && da <= dc then a else if db <= dc then b else c
  }

  function Predict(filter: byte, left: byte, up: byte, corner: byte): byte {
    if filter == 1 then left
    else if filter == 2 then up
    else if filter == 3 then (left as int + up as int) / 2
    else if filter == 4 then Paeth(left, up, corner)
    else 0
  }

  function At(row: Option<seq<byte>>, i: int): byte {
    if row.Some? && 0 <= i < |row.value| then row.value[i] else 0
  }

  function Prediction(filter: byte, row: seq<byte>, prior: Option<seq<byte>>, i: nat, channels: nat): byte {
    Predict(filter, At(Some(row), i - channels), At(prior, i), At(prior, i - channels))
  }

  /** The first n octets of the row a filtered row stands for: each is predicted from octets already restored. */
  function Restored(filter: byte, raw: seq<byte>, prior: Option<seq<byte>>, channels: nat, n: nat): (row: seq<byte>)
    requires n <= |raw|
    ensures |row| == n
  {
    if n == 0 then []
    else
      var front := Restored(filter, raw, prior, channels, n - 1);
      front + [(raw[n - 1] as int + Prediction(filter, front, prior, n - 1, channels) as int) % 0x100]
  }

  function Unfiltered(filter: byte, raw: seq<byte>, prior: Option<seq<byte>>, channels: nat): (row: seq<byte>)
    ensures |row| == |raw|
  {
    Restored(filter, raw, prior, channels, |raw|)
  }

  /** The encoder's side: every octet minus its prediction from the original row. */
  function Filtered(filter: byte, row: seq<byte>, prior: Option<seq<byte>>, channels: nat): (raw: seq<byte>)
    ensures |raw| == |row|
  {
    seq(|row|, i requires 0 <= i < |row| => (row[i] as int - Prediction(filter, row, prior, i, channels) as int) % 0x100)
  }

  /** The prediction of an octet looks at octets before it only. */
  lemma PredictionPrefix(filter: byte, row: seq<byte>, prior: Option<seq<byte>>, i: nat, n: nat, channels: nat)
    requires i <= n <= |row| && channels > 0
    ensures Prediction(filter, row, prior, i, channels) == Prediction(filter, row[..n], prior, i, channels)
  {
  }

  lemma ModularInverse(a: byte, p: byte)
    ensures ((a as int - p as int) % 0x100 + p as int) % 0x100 == a
    ensures ((a as int + p as int) % 0x100 - p as int) % 0x100 == a
  {
  }

  lemma {:induction false} RestoresPrefix(filter: byte, row: seq<byte>, prior: Option<seq<byte>>, channels: nat, n: nat)
    requires n <= |row| && channels > 0
    ensures Restored(filter, Filtered(filter, row, prior, channels), prior, channels, n) == row[..n]
  {
    hide Predict;
    if n > 0 {
      RestoresPrefix(filter, row, prior, channels, n - 1);
      PredictionPrefix(filter, row, prior, n - 1, n - 1, channels);
      ModularInverse(row[n - 1], Prediction(filter, row, prior, n - 1, channels));
      assert row[..n] == row[..n - 1] + [row[n - 1]];
    }
  }

  /** Unfiltering undoes filtering, for every filter type, row length and channel count. */
  lemma UnfilterInvertsFilter(filter: byte, row: seq<byte>, prior: Option<seq<byte>>, channels: nat)
    requires channels > 0
    ensures Unfiltered(filter, Filtered(filter, row, prior, channels), prior, channels) == row
  {
    RestoresPrefix(filter, row, prior, channels, |row|);
    assert row[..|row|] == row;
  }

  lemma {:induction false} RestoredPrefix(filter: byte, raw: seq<byte>, prior: Option<seq<byte>>, channels: nat, m: nat, n: nat)
    requires m <= n <= |raw|
    ensures Restored(filter, raw, prior, channels, n)[..m] == Restored(filter, raw, prior, channels, m)
  {
    if m < n { RestoredPrefix(filter, raw, prior, channels, m, n - 1); }
  }

  lemma RestoredAt(filter: byte, raw: seq<byte>, prior: Option<seq<byte>>, channels: nat, i: nat)
    requires channels > 0 && i < |raw|
    ensures var row := Unfiltered(filter, raw, prior, channels);
            row[i] == (raw[i] as int + Prediction(filter, row, prior, i, channels) as int) % 0x100
  {
    hide Predict;
    var row := Unfiltered(filter, raw, prior, channels);
    RestoredPrefix(filter, raw, prior, channels, i, |raw|);
    RestoredPrefix(filter, raw, prior, channels, i + 1, |raw|);
    PredictionPrefix(filter, row, prior, i, i, channels);
    assert row[i] == row[..i + 1][i];
  }

  /** ... and filtering undoes unfiltering, so a filtered row stands for exactly one row. */
  lemma FilterInvertsUnfilter(filter: byte, raw: seq<byte>, prior: Option<seq<byte>>, channels: nat)
    requires channels > 0
    ensures Filtered(filter, Unfiltered(filter, raw, prior, channels), prior, channels) == raw
  {
    hide Prediction, Unfiltered;
    var row := Unfiltered(filter, raw, prior, channels);
    forall i | 0 <= i < |raw| ensures Filtered(filter, row, prior, channels)[i] == raw[i] {
      RestoredAt(filter, raw, prior, channels, i);
      ModularInverse(raw[i], Prediction(filter, row, prior, i, channels));
    }
  }

  // ----- what the five filters mean, each in its own terms

  /** The octet at i and every channels-th octet before it. */
  function RunningSum(raw: seq<byte>, i: nat, channels: nat): nat
    requires i < |raw| && channels > 0
    decreases i
  {
    (raw[i] as int) + if i >= channels then RunningSum(raw, i - channels, channels) else 0
  }

  lemma NoneRestores(raw: seq<byte>, prior: Option<seq<byte>>, channels: nat)
    requires channels > 0
    ensures Unfiltered(0, raw, prior, channels) == raw
  {
    forall i | 0 <= i < |raw| ensures Unfiltered(0, raw, prior, channels)[i] == raw[i] { RestoredAt(0, raw, prior, channels, i); }
  }

  lemma {:induction false} SubRestores(raw: seq<byte>, prior: Option<seq<byte>>, channels: nat, i: nat)
    requires channels > 0 && i < |raw|
    ensures Unfiltered(1, raw, prior, channels)[i] as int == RunningSum(raw, i, channels) % 0x100
    decreases i
  {
    hide Unfiltered;
    RestoredAt(1, raw, prior, channels, i);
    if i >= channels { SubRestores(raw, prior, channels, i - channels); }
  }

  lemma UpRestores(raw: seq<byte>, prior: Option<seq<byte>>, channels: nat, i: nat)
    requires channels > 0 && i < |raw| && (prior.Some? ==> |prior.value| == |raw|)
    ensures Unfiltered(2, raw, prior, channels)[i] as int == if prior.Some? then (raw[i] as int + prior.value[i] as int) % 0x100 else raw[i]
  {
    hide Unfiltered;
    RestoredAt(2, raw, prior, channels, i);
  }

  lemma AverageRestores(raw: seq<byte>, prior: Option<seq<byte>>, channels: nat, i: nat)
    requires channels > 0 && i < |raw| && (prior.Some? ==> |prior.value| == |raw|)
    ensures var row := Unfiltered(3, raw, prior, channels);
            var left: int := if i >= channels then row[i - channels] else 0;
            var above: int := if prior.Some? then prior.value[i] else 0;
            row[i] as int == (raw[i] as int + (left + above) / 2) % 0x100
  {
    hide Unfiltered;
    RestoredAt(3, raw, prior, channels, i);
  }

  function Distance(a: int, b: int): nat { if a < b then b - a else a - b }

  /** n is the one of left, above and corner nearest to left + above - corner; of equally near ones the first. */
  predicate Nearest(n: int, left: int, above: int, corner: int) {
    var p := left + above - corner;
    var (a, b, c) := (Distance(left, p), Distance(above, p), Distance(corner, p));
    (n == left && a <= b && a <= c) || (n == above && b < a && b <= c) || (n == corner && c < a && c < b)
  }

  lemma PaethRestores(raw: seq<byte>, prior: Option<seq<byte>>, channels: nat, i: nat)
    requires channels > 0 && i < |raw| && (prior.Some? ==> |prior.value| == |raw|)
    ensures var row := Unfiltered(4, raw, prior, channels);
            var left: int := if i >= channels then row[i - channels] else 0;
            var above: int := if prior.Some? then prior.value[i] else 0;
            var corner: int := if prior.Some? && i >= channels then prior.value[i - channels] else 0;
            exists n: byte :: Nearest(n, left, above, corner) && row[i] as int == (raw[i] as int + n as int) % 0x100
  {
    hide Unfiltered, Nearest;
    RestoredAt(4, raw, prior, channels, i);
    var row := Unfiltered(4, raw, prior, channels);
    var left: byte := if i >= channels then row[i - channels] else 0;
    var above: byte := if prior.Some? then prior.value[i] else 0;
    var corner: byte := if prior.Some? && i >= channels then prior.value[i - channels] else 0;
    PaethNearest(left, above, corner);
  }

  lemma PaethNearest(left: byte, above: byte, corner: byte)
    ensures Nearest(Paeth(left, above, corner), left, above, corner)
    ensures forall n :: Nearest(n, left, above, corner) ==> n == Paeth(left, above, corner)
  {
  }

  /** The filter loop over the `length` octets at `at`, in place. */
  method Unfilter(filter: byte, a: array<byte>, at: nat, length: nat, prior: Option<seq<byte>>, channels: nat) returns (ok: bool)
    requires at + length <= a.Length && (prior.Some? ==> |prior.value| >= length)
    modifies a
    ensures ok <==> 1 <= channels <= 4 && filter <= 4
    ensures ok ==> a[at..at + length] == Unfiltered(filter, old(a[at..at + length]), prior, channels)
    ensures a[..at] == old(a[..at]) && a[at + length..] == old(a[at + length..]) && (!ok ==> a[..] == old(a[..]))
  {
    if channels == 0 || channels > 4 || filter > 4 { return false; }
    ghost var raw := a[at..at + length];
    for i := 0 to length
      invariant a[at..at + i] == Restored(filter, raw, prior, channels, i)
      invariant a[at + i..] == old(a[at + i..]) && a[..at] == old(a[..at])
    {
      var left: byte := if i >= channels then a[at + i - channels] else 0;
      var up: byte := if prior.Some? then prior.value[i] else 0;
      var corner: byte := if prior.Some? && i >= channels then prior.value[i - channels] else 0;
      assert a[at + i] == raw[i] by { assert a[at + i] == a[at + i..][0] == old(a[at + i..])[0]; }
      ghost var done := a[at..at + i];
      assert Prediction(filter, done, prior, i, channels) == Predict(filter, left, up, corner);
      a[at + i] := (a[at + i] as int + Predict(filter, left, up, corner) as int) % 0x100;
      assert a[at..at + i + 1] == done + [a[at + i]];
      assert a[at + i + 1..] == old(a[at + i + 1..]);
    }
    ok := true;
  }

  // ----- rows out of a stream

  /** A scanline stream cut into blocks of one filter octet and one row, each undone against the row before it. */
  function Rows(stream: seq<byte>, rowSize: nat, channels: nat, prior: Option<seq<byte>>): (rows: seq<seq<byte>>)
    decreases |stream|
  {
    if |stream| < rowSize + 1 then []
    else
      var row := Unfiltered(stream[0], stream[1..rowSize + 1], prior, channels);
      [row] + Rows(stream[rowSize + 1..], rowSize, channels, Some(row))
  }

  /** What whole blocks leave over. */
  function Rest(stream: seq<byte>, rowSize: nat): (rest: seq<byte>)
    ensures |rest| < rowSize + 1
    decreases |stream|
  {
    if |stream| < rowSize + 1 then stream else Rest(stream[rowSize + 1..], rowSize)
  }

  /** Every whole block names one of the five filters. */
  predicate Clean(stream: seq<byte>, rowSize: nat)
    decreases |stream|
  {
    |stream| < rowSize + 1 || (stream[0] <= 4 && Clean(stream[rowSize + 1..], rowSize))
  }

  function LastRow(rows: seq<seq<byte>>, prior: Option<seq<byte>>): Option<seq<byte>> {
    if rows == [] then prior else Some(rows[|rows| - 1])
  }

  /** Octets that do not complete a block only lengthen what is left over. */
  lemma {:induction false} PartialBlock(stream: seq<byte>, more: seq<byte>, rowSize: nat, channels: nat, prior: Option<seq<byte>>)
    requires |Rest(stream, rowSize)| + |more| < rowSize + 1
    ensures Rows(stream + more, rowSize, channels, prior) == Rows(stream, rowSize, channels, prior)
    ensures Rest(stream + more, rowSize) == Rest(stream, rowSize) + more
    ensures Clean(stream + more, rowSize) <==> Clean(stream, rowSize)
    decreases |stream|
  {
    if |stream| >= rowSize + 1 {
      var row := Unfiltered(stream[0], stream[1..rowSize + 1], prior, channels);
      assert (stream + more)[1..rowSize + 1] == stream[1..rowSize + 1];
      assert (stream + more)[rowSize + 1..] == stream[rowSize + 1..] + more;
      PartialBlock(stream[rowSize + 1..], more, rowSize, channels, Some(row));
    }
  }

  /** Octets that complete a block add exactly one row. */
  lemma {:induction false} FullBlock(stream: seq<byte>, more: seq<byte>, rowSize: nat, channels: nat, prior: Option<seq<byte>>)
    requires |Rest(stream, rowSize)| + |more| == rowSize + 1
    ensures var block, rows := Rest(stream, rowSize) + more, Rows(stream, rowSize, channels, prior);
            Rest(stream + more, rowSize) == [] &&
            Rows(stream + more, rowSize, channels, prior) ==
              rows + [Unfiltered(block[0], block[1..], LastRow(rows, prior), channels)] &&
            (Clean(stream + more, rowSize) <==> Clean(stream, rowSize) && block[0] <= 4)
    decreases |stream|
  {
    if |stream| >= rowSize + 1 {
      var row := Unfiltered(stream[0], stream[1..rowSize + 1], prior, channels);
      assert (stream + more)[1..rowSize + 1] == stream[1..rowSize + 1];
      assert (stream + more)[rowSize + 1..] == stream[rowSize + 1..] + more;
      FullBlock(stream[rowSize + 1..], more, rowSize, channels, Some(row));
    } else {
      assert (stream + more)[rowSize + 1..] == [] && (stream + more)[1..rowSize + 1] == (stream + more)[1..];
    }
  }

  /** More octets keep the rows there are, and an unknown filter stays one. */
  lemma {:induction false} RowsGrow(stream: seq<byte>, more: seq<byte>, rowSize: nat, channels: nat, prior: Option<seq<byte>>)
    ensures Rows(stream, rowSize, channels, prior) <= Rows(stream + more, rowSize, channels, prior)
    ensures Clean(stream + more, rowSize) ==> Clean(stream, rowSize)
    decreases |stream|
  {
    if |stream| >= rowSize + 1 {
      var row := Unfiltered(stream[0], stream[1..rowSize + 1], prior, channels);
      assert (stream + more)[1..rowSize + 1] == stream[1..rowSize + 1];
      assert (stream + more)[rowSize + 1..] == stream[rowSize + 1..] + more;
      RowsGrow(stream[rowSize + 1..], more, rowSize, channels, Some(row));
    }
  }

  /** A stream is its whole blocks and what they leave over. */
  lemma {:induction false} RowCount(stream: seq<byte>, rowSize: nat, channels: nat, prior: Option<seq<byte>>)
    ensures |stream| == (rowSize + 1) * |Rows(stream, rowSize, channels, prior)| + |Rest(stream, rowSize)|
    decreases |stream|
  {
    if |stream| >= rowSize + 1 {
      var row := Unfiltered(stream[0], stream[1..rowSize + 1], prior, channels);
      RowCount(stream[rowSize + 1..], rowSize, channels, Some(row));
      OneMore(rowSize + 1, |Rows(stream[rowSize + 1..], rowSize, channels, Some(row))|);
    }
  }

  lemma OneMore(k: nat, n: nat)
    ensures k * (n + 1) == k + k * n
  {
  }

  lemma WholeBlocks(k: nat, n: nat, rest: nat, height: nat)
    requires rest < k
    ensures k * n + rest == k * height <==> n == height && rest == 0
  {
    if n < height { assert k * height >= k * (n + 1) == k * n + k; }
    if n > height { assert k * n >= k * (height + 1) == k * height + k; }
  }

  /** Blue, green, red, alpha of pixel x; grey is spread over the three colours and a missing alpha is opaque. */
  function PixelBgra(row: seq<byte>, channels: nat, x: nat): (p: seq<byte>)
    requires channels > 0 && (channels == 1 || channels >= 3) && (x + 1) * channels <= |row|
    ensures |p| == 4
  {
    assert x * channels + channels == (x + 1) * channels;
    var at := x * channels;
    [row[at + if channels == 1 then 0 else 2], row[at + if channels == 1 then 0 else 1], row[at], if channels == 4 then row[at + 3] else 255]
  }

  function Bgra(row: seq<byte>, channels: nat, pixels: nat): (b: seq<byte>)
    requires channels > 0 && (channels == 1 || channels >= 3) && pixels * channels <= |row|
    ensures |b| == 4 * pixels
  {
    if pixels == 0 then []
    else
      assert (pixels - 1) * channels <= pixels * channels;
      Bgra(row, channels, pixels - 1) + PixelBgra(row, channels, pixels - 1)
  }

  /** Octet by octet: grey fills blue, green and red; colour comes back in that order; alpha is kept or opaque. */
  lemma {:induction false} BgraOctets(row: seq<byte>, channels: nat, pixels: nat, x: nat)
    requires (channels == 1 || channels == 3 || channels == 4) && pixels * channels <= |row| && x < pixels
    ensures (x + 1) * channels <= |row|
    ensures var b, at := Bgra(row, channels, pixels), x * channels;
            (channels == 1 ==> b[4 * x] == b[4 * x + 1] == b[4 * x + 2] == row[at]) &&
            (channels != 1 ==> b[4 * x + 2] == row[at] && b[4 * x + 1] == row[at + 1] && b[4 * x] == row[at + 2]) &&
            b[4 * x + 3] == if channels == 4 then row[at + 3] else 255
  {
    assert (pixels - 1) * channels <= pixels * channels;
    if x < pixels - 1 { BgraOctets(row, channels, pixels - 1, x); }
  }

  /** Row k of a stream is its block k, unfiltered against row k - 1. */
  lemma {:induction false} RowOfBlock(stream: seq<byte>, rowSize: nat, channels: nat, prior: Option<seq<byte>>, k: nat)
    requires k < |Rows(stream, rowSize, channels, prior)|
    ensures 0 <= k * (rowSize + 1) && (k + 1) * (rowSize + 1) <= |stream|
    ensures var rows, at := Rows(stream, rowSize, channels, prior), k * (rowSize + 1);
            rows[k] == Unfiltered(stream[at], stream[at + 1..at + 1 + rowSize], if k == 0 then prior else Some(rows[k - 1]), channels)
    decreases k
  {
    hide Unfiltered;
    if k > 0 {
      var row := Unfiltered(stream[0], stream[1..rowSize + 1], prior, channels);
      var more := stream[rowSize + 1..];
      RowOfBlock(more, rowSize, channels, Some(row), k - 1);
      var at := (k - 1) * (rowSize + 1);
      assert k * (rowSize + 1) == at + (rowSize + 1) && (k + 1) * (rowSize + 1) == k * (rowSize + 1) + (rowSize + 1);
      assert more[at + 1..at + 1 + rowSize] == stream[at + rowSize + 2..at + rowSize + 2 + rowSize];
    }
  }

  datatype PngInfo = PngInfo(width: nat, height: nat, channels: nat) {
    /** What the header check of the avatar files leaves. */
    predicate Valid() { width == WIDTH && height == HEIGHT && (channels == 1 || channels == 3 || channels == 4) }

    function RowSize(): (n: nat)
      requires Valid()
      ensures n <= 4 * WIDTH && n == width * channels
    {
      width * channels
    }
  }

  function AllBgra(info: PngInfo, rows: seq<seq<byte>>): (out: seq<seq<byte>>)
    requires info.Valid() && forall r | r in rows :: |r| == info.RowSize()
    ensures |out| == |rows|
  {
    if rows == [] then []
    else
      var n := |rows| - 1;
      assert rows[n] in rows;
      assert |rows[n]| == info.RowSize() == info.width * info.channels;
      assert forall r | r in rows[..n] :: r in rows;
      AllBgra(info, rows[..n]) + [Bgra(rows[n], info.channels, info.width)]
  }

  lemma {:induction false} RowLengths(stream: seq<byte>, rowSize: nat, channels: nat, prior: Option<seq<byte>>)
    ensures forall r | r in Rows(stream, rowSize, channels, prior) :: |r| == rowSize
    decreases |stream|
  {
    if |stream| >= rowSize + 1 {
      var row := Unfiltered(stream[0], stream[1..rowSize + 1], prior, channels);
      RowLengths(stream[rowSize + 1..], rowSize, channels, Some(row));
    }
  }

  ghost function Expected(info: PngInfo, stream: seq<byte>): seq<seq<byte>>
    requires info.Valid()
  {
    RowLengths(stream, info.RowSize(), info.channels, None);
    AllBgra(info, Rows(stream, info.RowSize(), info.channels, None))
  }

  /** The decoder's row buffers; the sink takes `takes` rows and refuses the next. `emitted` is what it took and `seen`
      every octet delivered so far. */
  class RowDecoder {
    const info: PngInfo
    const takes: nat
    const current: array<byte>
    const prior: array<byte>
    const bgra: array<byte>
    var fill: nat
    var produced: nat
    var row: nat
    var emitted: seq<seq<byte>>
    ghost var seen: seq<byte>

    ghost predicate Buffers()
      reads this
    {
      info.Valid() && current.Length == 4 * WIDTH + 1 && prior.Length == 4 * WIDTH && bgra.Length == 4 * WIDTH &&
      current != prior && current != bgra && prior != bgra
    }

    ghost predicate Valid()
      reads this, current, prior
    {
      Aligned() && produced == |seen|
    }

    /** The buffers hold what is left over and the last row of the octets seen. */
    ghost predicate Aligned()
      reads this, current, prior
    {
      Buffers() &&
      var rows := Rows(seen, info.RowSize(), info.channels, None);
      fill <= info.RowSize() && current[..fill] == Rest(seen, info.RowSize()) && row == |rows| &&
      (row > 0 ==> prior[..info.RowSize()] == rows[row - 1]) && emitted == Expected(info, seen) &&
      Clean(seen, info.RowSize()) && row <= takes
    }

    constructor (info: PngInfo, takes: nat)
      requires info.Valid()
      ensures Valid() && this.info == info && this.takes == takes && seen == [] && fresh(current) && fresh(prior) && fresh(bgra)
    {
      this.info, this.takes := info, takes;
      current := new byte[4 * WIDTH + 1](_ => 0);
      prior := new byte[4 * WIDTH](_ => 0);
      bgra := new byte[4 * WIDTH](_ => 0);
      fill, produced, row, emitted, seen := 0, 0, 0, [], [];
    }

    /** The pixel loop of one finished row. */
    method FillBgra()
      requires Buffers()
      modifies bgra
      ensures bgra[..4 * info.width] == Bgra(current[1..info.RowSize() + 1], info.channels, info.width)
    {
      hide PixelBgra;
      ghost var raw := current[1..info.RowSize() + 1];
      for x := 0 to info.width
        invariant x * info.channels <= info.RowSize()
        invariant bgra[..4 * x] == Bgra(raw, info.channels, x)
      {
        PixelRange(info, x);
        var p := PixelBgra(current[1..info.RowSize() + 1], info.channels, x);
        ghost var done := bgra[..4 * x];
        bgra[4 * x], bgra[4 * x + 1], bgra[4 * x + 2], bgra[4 * x + 3] := p[0], p[1], p[2], p[3];
        assert bgra[..4 * (x + 1)] == done + p;
      }
    }

    /** A whole block in `current`: undo its filter, hand the row to the sink and keep it for the next one. */
    method FinishRow(ghost more: seq<byte>) returns (ok: bool)
      requires Buffers() && |more| > 0 && fill == info.RowSize() + 1
      requires |Rest(seen, info.RowSize())| + |more| == info.RowSize() + 1
      requires current[..fill] == Rest(seen, info.RowSize()) + more && emitted == Expected(info, seen)
      requires var rows := Rows(seen, info.RowSize(), info.channels, None);
               row == |rows| && (row > 0 ==> prior[..info.RowSize()] == rows[row - 1])
      requires Clean(seen, info.RowSize()) && row <= takes
      modifies `fill, `row, `emitted, `seen, current, prior, bgra
      ensures ok <==> Clean(old(seen) + more, info.RowSize()) && old(row) < takes
      ensures ok ==> Aligned() && seen == old(seen) + more && fill == 0
      ensures !ok ==> emitted == old(emitted)
    {
      hide Unfiltered, Bgra, Rows, Rest, AllBgra, Clean;
      ghost var size, block := info.RowSize(), current[..fill];
      FullBlock(seen, more, size, info.channels, None);
      var before := if row > 0 then Some(prior[..info.RowSize()]) else None;
      assert block[1..] == current[1..size + 1];
      ok := Unfilter(current[0], current, 1, info.RowSize(), before, info.channels);
      if !ok { return; }
      FillBgra();
      if row == takes { return false; }
      emitted := emitted + [bgra[..4 * info.width]];
      forall i | 0 <= i < info.RowSize() { prior[i] := current[1 + i]; }
      assert prior[..size] == current[1..size + 1];
      fill, row := 0, row + 1;
      ExpectedAppend(info, seen, more);
      seen := seen + more;
    }

    /** Inflate output of any size: blocks are filled, and every finished row goes to the sink. */
    method Deliver(bytes: seq<byte>) returns (ok: bool)
      requires Valid()
      modifies `fill, `row, `emitted, `seen, `produced, current, prior, bgra
      ensures ok <==> |old(seen)| + |bytes| <= (info.RowSize() + 1) * info.height && Fine(info, takes, old(seen) + bytes)
      ensures ok ==> Valid() && seen == old(seen) + bytes
      ensures emitted <= Expected(info, old(seen) + bytes)
    {
      hide Rows, Rest, Expected, Clean;
      ExpectedGrows(info, seen, bytes);
      var expected := (info.RowSize() + 1) * info.height;
      if produced > expected || |bytes| > expected - produced { return false; }
      produced := produced + |bytes|;
      ghost var start := seen;
      var i := 0;
      while i < |bytes|
        invariant 0 <= i <= |bytes| && Aligned() && seen == start + bytes[..i] && produced == |start| + |bytes|
      {
        Grown(start, bytes, i);
        var take := info.RowSize() + 1 - fill;
        if take > |bytes| - i { take := |bytes| - i; }
        assert start + bytes[..i + take] == seen + bytes[i..i + take];
        Grown(start, bytes, i + take);
        ok := Fill(bytes[i..i + take]);
        if !ok { return; }
        i := i + take;
      }
      assert bytes[..|bytes|] == bytes;
      ok := true;
    }

    method Fill(piece: seq<byte>) returns (ok: bool)
      requires Aligned() && |piece| > 0 && fill + |piece| <= info.RowSize() + 1
      modifies `fill, `row, `emitted, `seen, current, prior, bgra
      ensures ok <==> Fine(info, takes, old(seen) + piece)
      ensures ok ==> Aligned() && seen == old(seen) + piece
      ensures !ok ==> emitted == old(emitted)
    {
      hide Rows, Rest, Expected, Clean;
      ghost var held := current[..fill];
      forall k | 0 <= k < |piece| { current[fill + k] := piece[k]; }
      fill := fill + |piece|;
      assert current[..fill] == held + piece;
      if fill != info.RowSize() + 1 {
        PartialBlock(seen, piece, info.RowSize(), info.channels, None);
        ExpectedSame(info, seen, piece);
        seen := seen + piece;
        return true;
      }
      FullBlock(seen, piece, info.RowSize(), info.channels, None);
      ok := FinishRow(piece);
    }

    /** What the whole of a delivery comes to already shows in each of its prefixes. */
    lemma Grown(start: seq<byte>, bytes: seq<byte>, i: nat)
      requires info.Valid() && i <= |bytes|
      ensures Fine(info, takes, start + bytes) ==> Fine(info, takes, start + bytes[..i])
      ensures Expected(info, start + bytes[..i]) <= Expected(info, start + bytes)
    {
      hide Rows, Rest, Expected, Clean;
      assert start + bytes == start + bytes[..i] + bytes[i..];
      ExpectedGrows(info, start + bytes[..i], bytes[i..]);
    }
  }

  /** The stream so far has known filters only, and no more rows than the sink takes. */
  predicate Fine(info: PngInfo, takes: nat, stream: seq<byte>)
    requires info.Valid()
  {
    Clean(stream, info.RowSize()) && |Rows(stream, info.RowSize(), info.channels, None)| <= takes
  }

  lemma {:induction false} BgraGrows(info: PngInfo, rows: seq<seq<byte>>, more: seq<seq<byte>>)
    requires info.Valid() && forall r | r in rows + more :: |r| == info.RowSize()
    ensures (forall r | r in rows :: |r| == info.RowSize()) && AllBgra(info, rows) <= AllBgra(info, rows + more)
    decreases |more|
  {
    hide Bgra;
    forall r | r in rows ensures |r| == info.RowSize() { assert r in rows + more; }
    if more == [] {
      assert rows + more == rows;
    } else {
      var n := |more| - 1;
      var all := rows + more;
      assert all[..|all| - 1] == rows + more[..n];
      forall r | r in rows + more[..n] ensures |r| == info.RowSize() { assert r in all; }
      BgraGrows(info, rows, more[..n]);
    }
  }

  lemma ExpectedGrows(info: PngInfo, stream: seq<byte>, more: seq<byte>)
    requires info.Valid()
    ensures Expected(info, stream) <= Expected(info, stream + more)
    ensures forall takes :: Fine(info, takes, stream + more) ==> Fine(info, takes, stream)
  {
    hide Rows, Clean, AllBgra;
    var size := info.RowSize();
    RowsGrow(stream, more, size, info.channels, None);
    RowLengths(stream, size, info.channels, None);
    RowLengths(stream + more, size, info.channels, None);
    var few, many := Rows(stream, size, info.channels, None), Rows(stream + more, size, info.channels, None);
    assert many == few + many[|few|..];
    BgraGrows(info, few, many[|few|..]);
  }

  lemma ExpectedSame(info: PngInfo, seen: seq<byte>, more: seq<byte>)
    requires info.Valid() && |Rest(seen, info.RowSize())| + |more| < info.RowSize() + 1
    ensures Expected(info, seen + more) == Expected(info, seen)
  {
    PartialBlock(seen, more, info.RowSize(), info.channels, None);
  }

  /** The stream is a whole picture: its length, its filters and the sink allow it. */
  predicate Complete(info: PngInfo, takes: nat, stream: seq<byte>)
    requires info.Valid()
  {
    |stream| == (info.RowSize() + 1) * info.height && Clean(stream, info.RowSize()) && info.height <= takes
  }

  lemma CompleteIs(info: PngInfo, takes: nat, stream: seq<byte>)
    requires info.Valid()
    ensures Complete(info, takes, stream) <==>
            Fine(info, takes, stream) && |Rows(stream, info.RowSize(), info.channels, None)| == info.height && Rest(stream, info.RowSize()) == []
  {
    hide Rows, Rest, Clean;
    var size := info.RowSize();
    RowCount(stream, size, info.channels, None);
    WholeBlocks(size + 1, |Rows(stream, size, info.channels, None)|, |Rest(stream, size)|, info.height);
  }

  /** The decompressor as an arbitrary producer of chunks that may stop early. OK is reported exactly for a stream that
      ended and is a whole picture the sink takes, however it was chunked; whatever the outcome, the rows the sink took
      are the first rows of the whole stream, and all of them when it is OK. */
  method DecodeRows(decoder: RowDecoder, chunks: seq<seq<byte>>, ended: bool) returns (ok: bool)
    requires decoder.Valid() && decoder.seen == []
    modifies decoder, decoder.current, decoder.prior, decoder.bgra
    ensures ok <==> ended && Complete(decoder.info, decoder.takes, Join(chunks))
    ensures decoder.emitted <= Expected(decoder.info, Join(chunks))
    ensures ok ==> |decoder.emitted| == decoder.info.height && decoder.emitted == Expected(decoder.info, Join(chunks))
  {
    hide Rows, Rest, Expected, Clean, Complete;
    ghost var info, takes, all := decoder.info, decoder.takes, Join(chunks);
    CompleteIs(info, takes, all);
    for i := 0 to |chunks|
      invariant decoder.Valid() && decoder.seen == Join(chunks[..i])
    {
      assert chunks[..i + 1][..i] == chunks[..i];
      JoinGrows(chunks, i + 1);
      ghost var part := Join(chunks[..i + 1]);
      assert all == part + all[|part|..];
      ExpectedGrows(info, part, all[|part|..]);
      ok := decoder.Deliver(chunks[i]);
      if !ok {
        if Complete(info, takes, all) { CompleteLength(info, takes, all); }
        return;
      }
    }
    assert chunks[..|chunks|] == chunks;
    ok := ended && decoder.fill == 0 && decoder.row == decoder.info.height;
    EmittedCount(decoder.info, decoder.seen);
  }

  lemma CompleteLength(info: PngInfo, takes: nat, stream: seq<byte>)
    requires info.Valid() && Complete(info, takes, stream)
    ensures |stream| == (info.RowSize() + 1) * info.height
  {
  }

  lemma {:induction false} JoinGrows(chunks: seq<seq<byte>>, n: nat)
    requires n <= |chunks|
    ensures Join(chunks[..n]) <= Join(chunks)
    decreases |chunks|
  {
    if n < |chunks| {
      var front := chunks[..|chunks| - 1];
      assert front[..n] == chunks[..n];
      JoinGrows(front, n);
    } else {
      assert chunks[..n] == chunks;
    }
  }

  function Join(chunks: seq<seq<byte>>): seq<byte> {
    if chunks == [] then [] else Join(chunks[..|chunks| - 1]) + chunks[|chunks| - 1]
  }

  lemma EmittedCount(info: PngInfo, seen: seq<byte>)
    requires info.Valid()
    ensures |Expected(info, seen)| == |Rows(seen, info.RowSize(), info.channels, None)|
  {
    RowLengths(seen, info.RowSize(), info.channels, None);
  }

  lemma ExpectedAppend(info: PngInfo, seen: seq<byte>, more: seq<byte>)
    requires info.Valid() && |Rest(seen, info.RowSize())| + |more| == info.RowSize() + 1
    ensures var block, rows := Rest(seen, info.RowSize()) + more, Rows(seen, info.RowSize(), info.channels, None);
            info.width * info.channels == info.RowSize() &&
            Expected(info, seen + more) ==
              Expected(info, seen) + [Bgra(Unfiltered(block[0], block[1..], LastRow(rows, None), info.channels), info.channels, info.width)]
  {
    hide Bgra, Rows, Rest, Unfiltered;
    FullBlock(seen, more, info.RowSize(), info.channels, None);
    RowLengths(seen, info.RowSize(), info.channels, None);
    RowLengths(seen + more, info.RowSize(), info.channels, None);
    var all := Rows(seen + more, info.RowSize(), info.channels, None);
    assert all[..|all| - 1] == Rows(seen, info.RowSize(), info.channels, None);
  }

  lemma PixelRange(info: PngInfo, x: nat)
    requires info.Valid() && x < info.width
    ensures (x + 1) * info.channels <= info.RowSize()
  {
  }
}
