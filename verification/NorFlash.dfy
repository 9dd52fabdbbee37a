/** NOR flash cells: erasing sets every bit, programming can only clear bits. */
module NorFlash {
  import opened Bytes
  import opened Bits

  const ERASED: byte := 0xff

  predicate Blank(cells: seq<byte>, from: nat, to: nat)
    requires from <= to <= |cells|
  {
    forall i | from <= i < to :: cells[i] == ERASED
  }

  function Erase(size: nat): (cells: seq<byte>)
    ensures |cells| == size && Blank(cells, 0, size)
  {
    seq(size, _ => ERASED)
  }

  function Program(cells: seq<byte>, offset: nat, data: seq<byte>): (after: seq<byte>)
    requires offset + |data| <= |cells|
    ensures |after| == |cells|
  {
    seq(|cells|, i requires 0 <= i < |cells| => if offset <= i < offset + |data| then And(cells[i], data[i - offset]) else cells[i])
  }

  /** What an interrupted or failed programming operation may leave: only addressed cells changed, only bits cleared. */
  predicate Torn(before: seq<byte>, after: seq<byte>, offset: nat, length: nat)
    requires offset + length <= |before|
  {
    |after| == |before| &&
    (forall i | 0 <= i < |before| && !(offset <= i < offset + length) :: after[i] == before[i]) &&
    (forall i | offset <= i < offset + length :: And(before[i], after[i]) == after[i])
  }

  /** Programming erased cells stores the data verbatim. */
  lemma ProgramBlank(cells: seq<byte>, offset: nat, data: seq<byte>)
    requires offset + |data| <= |cells| && Blank(cells, offset, offset + |data|)
    ensures Program(cells, offset, data) == cells[..offset] + data + cells[offset + |data|..]
  {
    var after := Program(cells, offset, data);
    forall i | 0 <= i < |cells| ensures after[i] == (cells[..offset] + data + cells[offset + |data|..])[i] {
      if offset <= i < offset + |data| { AndErased(data[i - offset]); }
    }
  }
}
