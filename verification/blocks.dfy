// The chained output buffer: 128-byte blocks linked by next, appended to at
// (current, ptr), patched through addresses taken earlier, flattened at the end.
module Blocks {
  import opened Wire

  const BLOCK_SIZE := 128

  class Block {
    var next: Block?
    const buffer: array<byte>

    constructor ()
      ensures fresh(buffer) && buffer.Length == BLOCK_SIZE && next == null
    {
      buffer := new byte[BLOCK_SIZE](_ => 0);
      next := null;
    }
  }

  // A pointer into a block.
  datatype Address = Address(block: Block, offset: nat)

  class BlockChain {
    var head: Block
    var current: Block
    var len: nat
    var ptr: nat

    ghost var chain: seq<Block>
    ghost var contents: seq<byte>

    ghost var Repr: set<object>

    ghost predicate Linked()
      reads this, chain
    {
      && |chain| > 0 && chain[0] == head && chain[|chain| - 1] == current
      && (forall i :: 0 <= i < |chain| - 1 ==> chain[i].next == chain[i + 1])
      && current.next == null
      && (forall i :: 0 <= i < |chain| ==> chain[i].buffer.Length == BLOCK_SIZE)
      && (forall i, j :: 0 <= i < j < |chain| ==> chain[i] != chain[j] && chain[i].buffer != chain[j].buffer)
    }

    ghost predicate Valid()
      reads this, Repr
      ensures Valid() ==> this in Repr && ptr <= BLOCK_SIZE && |contents| == len
    {
      && this in Repr
      && (forall b :: b in chain ==> b in Repr && b.buffer in Repr)
      && Linked()
      && ptr <= BLOCK_SIZE
      && len == BLOCK_SIZE * (|chain| - 1) + ptr
      && |contents| == len
      && (forall i, j {:trigger chain[i].buffer[j]} ::
            0 <= i < |chain| && 0 <= j < BLOCK_SIZE && BLOCK_SIZE * i + j < len ==>
              chain[i].buffer[j] == contents[BLOCK_SIZE * i + j])
    }

    // a points at output byte pos, written or about to be.
    ghost predicate Denotes(a: Address, pos: nat)
      reads this
    {
      pos / BLOCK_SIZE < |chain| && chain[pos / BLOCK_SIZE] == a.block && pos % BLOCK_SIZE == a.offset
    }

    constructor ()
      ensures Valid() && contents == [] && fresh(Repr)
    {
      var b := new Block();
      head, current, len, ptr := b, b, 0, 0;
      chain, contents := [b], [];
      Repr := {this, b, b.buffer};
    }

    // current = current->next = blk_alloc(); ptr = 0
    method Extend()
      requires Valid() && ptr == BLOCK_SIZE
      modifies Repr
      ensures Valid() && ptr == 0 && contents == old(contents)
      ensures old(chain) <= chain && fresh(Repr - old(Repr))
    {
      var b := new Block();
      current.next := b;
      current, ptr := b, 0;
      chain := chain + [b];
      Repr := Repr + {b, b.buffer};
    }

    // memcpy of a piece that fits in the current block
    method Copy(piece: seq<byte>)
      requires Valid() && ptr + |piece| <= BLOCK_SIZE
      modifies Repr
      ensures Valid() && contents == old(contents) + piece
      ensures ptr == old(ptr) + |piece| && chain == old(chain) && Repr == old(Repr)
    {
      WriteAt(current.buffer, ptr, piece);
      ptr := ptr + |piece|;
      len := len + |piece|;
      contents := contents + piece;
    }

    // The partial copy at the end of a full block, and the next block
    method FillBlock(piece: seq<byte>)
      requires Valid() && ptr + |piece| == BLOCK_SIZE
      modifies Repr
      ensures Valid() && ptr == 0 && contents == old(contents) + piece
      ensures old(chain) <= chain && fresh(Repr - old(Repr))
    {
      Copy(piece);
      Extend();
    }

    // wb_push
    method Push(buf: seq<byte>)
      requires Valid()
      modifies Repr
      ensures Valid() && contents == old(contents) + buf
      ensures old(chain) <= chain && fresh(Repr - old(Repr))
    {
      hide Valid, Linked;
      if ptr == BLOCK_SIZE {
        Extend();
      }
      var done := 0;
      assert buf[..0] == [];
      while ptr > BLOCK_SIZE - (|buf| - done)
        invariant Valid() && old(chain) <= chain && fresh(Repr - old(Repr))
        invariant 0 <= done <= |buf| && ptr < BLOCK_SIZE
        invariant contents == old(contents) + buf[..done]
        decreases |buf| - done
      {
        var copy := BLOCK_SIZE - ptr;
        FillBlock(buf[done..done + copy]);
        assert buf[..done] + buf[done..done + copy] == buf[..done + copy];
        done := done + copy;
      }
      assert buf[..done] + buf[done..] == buf;
      Copy(buf[done..]);
    }

    // wb_address: where the next byte will go.
    method TakeAddress() returns (a: Address)
      requires Valid()
      modifies Repr
      ensures Valid() && contents == old(contents)
      ensures old(chain) <= chain && fresh(Repr - old(Repr))
      ensures Denotes(a, |contents|)
    {
      if ptr == BLOCK_SIZE {
        Extend();
      }
      a := Address(current, ptr);
    }

    // change_mark's store through an address.
    method Patch(a: Address, b: byte, ghost pos: nat)
      requires Valid() && Denotes(a, pos) && pos < |contents|
      modifies Repr
      ensures Valid() && contents == old(contents)[pos := b]
      ensures chain == old(chain) && Repr == old(Repr)
    {
      a.block.buffer[a.offset] := b;
      contents := contents[pos := b];
    }

    method Load(a: Address, ghost pos: nat) returns (b: byte)
      requires Valid() && Denotes(a, pos) && pos < |contents|
      ensures b == contents[pos]
    {
      b := a.block.buffer[a.offset];
    }

    // seri: the length, then the bytes, copied block by block.
    method Seri() returns (out: array<byte>)
      requires Valid() && len < INT_LIMIT
      ensures fresh(out) && out[..] == ToLE(|contents|, 4) + contents
    {
      hide Linked, Valid, ToLE;
      ghost var image := ToLE(len, 4) + contents;
      out := new byte[len + 4](_ => 0);
      WriteAt(out, 0, ToLE(len, 4));
      FirstBlock();
      var b: Block? := head;
      var left, p := len, 4;
      ghost var i := 0;
      while left > 0
        invariant 0 <= i <= |chain| && 4 <= p <= out.Length && left == out.Length - p
        invariant left > 0 ==> p == 4 + BLOCK_SIZE * i && i < |chain| && b == chain[i]
        invariant forall j :: 0 <= j < p ==> out[j] == image[j]
      {
        var n := if left >= BLOCK_SIZE then BLOCK_SIZE else left;
        BlockAt(i, n);
        WriteAt(out, p, b.buffer[..n]);
        p, left := p + n, left - n;
        if n < BLOCK_SIZE {
          break;
        }
        b := b.next;
        i := i + 1;
      }
    }

    lemma FirstBlock()
      requires Valid()
      ensures |chain| > 0 && chain[0] == head
    {
    }

    // Block i holds its share of the output, and leads to block i + 1 when
    // there is more to come.
    lemma BlockAt(i: nat, n: nat)
      requires Valid() && i < |chain| && n <= BLOCK_SIZE && BLOCK_SIZE * i + n <= len
      ensures n <= chain[i].buffer.Length
      ensures forall j :: 0 <= j < n ==> chain[i].buffer[j] == contents[BLOCK_SIZE * i + j]
      ensures BLOCK_SIZE * (i + 1) < len ==> i + 1 < |chain| && chain[i].next == chain[i + 1]
    {
    }
  }

  // memcpy into a byte array
  method WriteAt(a: array<byte>, at: nat, bytes: seq<byte>)
    requires at + |bytes| <= a.Length
    modifies a
    ensures forall j :: 0 <= j < at ==> a[j] == old(a[j])
    ensures forall j :: at <= j < at + |bytes| ==> a[j] == bytes[j - at]
  {
    for k := 0 to |bytes|
      invariant forall j :: 0 <= j < at ==> a[j] == old(a[j])
      invariant forall j :: at <= j < at + k ==> a[j] == bytes[j - at]
    {
      a[at + k] := bytes[k];
    }
  }
}
