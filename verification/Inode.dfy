/** Inode contents and block ownership (fs.c), on values: which block an inode's slot names,
    which bytes a file has, and what allocating, attaching and writing a block change. */
module Inode {
  import opened Params

  const NDIRECT := 12
  const NINDIRECT := BSIZE / 4
  const MAXFILE := NDIRECT + NINDIRECT
  const BPB := BSIZE * 8
  const IPB := BSIZE / 64                    // sizeof(struct dinode) is 64

  type Block = seq<int>                      // BSIZE bytes

  function Zero(): (b: Block)
    ensures |b| == BSIZE && forall i :: 0 <= i < BSIZE ==> b[i] == 0
  {
    seq(BSIZE, i => 0)
  }

  /** Entry j of a block read as an array of little-endian uints. */
  function Word(b: Block, j: nat): (w: int)
    requires |b| >= 4 * (j + 1)
  {
    if j > 0 then Word(b[4..], j - 1)
    else b[0] + 0x100 * b[1] + 0x1_0000 * b[2] + 0x100_0000 * b[3]
  }

  function SetWord(b: Block, j: nat, w: int): (r: Block)
    requires |b| >= 4 * (j + 1)
    ensures |r| == |b|
  {
    if j > 0 then b[..4] + SetWord(b[4..], j - 1, w)
    else [w % 0x100, w / 0x100 % 0x100, w / 0x1_0000 % 0x100, w / 0x100_0000] + b[4..]
  }

  lemma {:induction false} WordRoundTrip(b: Block, j: nat, w: int, i: nat)
    requires |b| >= 4 * (j + 1) && |b| >= 4 * (i + 1) && 0 <= w < 0x1_0000_0000
    ensures Word(SetWord(b, j, w), i) == if i == j then w else Word(b, i)
  {
    if i > 0 && j > 0 {
      WordRoundTrip(b[4..], j - 1, w, i - 1);
      assert SetWord(b, j, w)[4..] == SetWord(b[4..], j - 1, w);
    } else if i > 0 {
      assert SetWord(b, j, w)[4..] == b[4..];
    } else if j == 0 {
      Digits(w);
    }
  }

  lemma Digits(w: int)
    requires 0 <= w < 0x1_0000_0000
    ensures w % 0x100 + 0x100 * (w / 0x100 % 0x100) + 0x1_0000 * (w / 0x1_0000 % 0x100)
      + 0x100_0000 * (w / 0x100_0000) == w
  {
    var w1 := w / 0x100;
    var w2 := w1 / 0x100;
    var w3 := w2 / 0x100;
    assert w2 == w / 0x1_0000;
    assert w3 == w / 0x100_0000;
    assert w == w % 0x100 + 0x100 * w1;
    assert w1 == w1 % 0x100 + 0x100 * w2;
    assert w2 == w2 % 0x100 + 0x100 * w3;
  }

  // ----- the volume -----

  datatype Super = Super(size: nat, inodestart: nat, bmapstart: nat, datastart: nat)

  /** The fields of an inode that live on disk and that file contents depend on. */
  datatype Ino = Ino(size: nat, addrs: seq<nat>)

  /** blocks: contents as the buffer cache presents them; used: the free bitmap, one bit per
      block; inodes: the in-memory copies; dinodes: the copies in the inode blocks. */
  datatype FS = FS(sb: Super, blocks: seq<Block>, used: seq<bool>, inodes: seq<Ino>, dinodes: seq<Ino>)

  /** A slot of an inode: data block number k < MAXFILE, or MAXFILE for the indirect block. */
  datatype Owner = Owner(inum: nat, slot: nat)
  type Owners = map<nat, Owner>

  predicate Shaped(s: FS) {
    && 1 <= s.sb.datastart <= s.sb.size < 0x1_0000_0000
    && |s.blocks| == s.sb.size && |s.used| == s.sb.size
    && (forall b :: 0 <= b < |s.blocks| ==> |s.blocks[b]| == BSIZE)
    && |s.dinodes| == |s.inodes|
    && (forall i :: 0 <= i < |s.inodes| ==> |s.inodes[i].addrs| == NDIRECT + 1)
    && (forall i, k :: 0 <= i < |s.inodes| && 0 <= k <= NDIRECT ==> s.inodes[i].addrs[k] < s.sb.size)
    && (forall b :: 0 <= b < s.sb.datastart ==> s.used[b])     // mkfs marks the metadata
  }

  /** The block in a slot, or 0. */
  function Slot(s: FS, ip: nat, k: nat): (b: int)
    requires Shaped(s) && ip < |s.inodes| && k <= MAXFILE
  {
    var a := s.inodes[ip].addrs;
    if k < NDIRECT then a[k]
    else if k == MAXFILE then a[NDIRECT]
    else if a[NDIRECT] == 0 then 0
    else Word(s.blocks[a[NDIRECT]], k - NDIRECT)
  }

  lemma {:induction false} WordAt(b: Block, j: nat)
    requires |b| >= 4 * (j + 1)
    ensures Word(b, j) == b[4 * j] + 0x100 * b[4 * j + 1] + 0x1_0000 * b[4 * j + 2] + 0x100_0000 * b[4 * j + 3]
  {
    if j > 0 { WordAt(b[4..], j - 1); }
  }

  /** Where the number of a data block is kept: in the inode, or little-endian in the indirect block. */
  lemma SlotLayout(s: FS, ip: nat, k: nat)
    requires Shaped(s) && ip < |s.inodes| && k < 12 + 128
    ensures k < 12 ==> Slot(s, ip, k) == s.inodes[ip].addrs[k]
    ensures k >= 12 && s.inodes[ip].addrs[12] == 0 ==> Slot(s, ip, k) == 0
    ensures k >= 12 && s.inodes[ip].addrs[12] != 0 ==>
      var b, o := s.blocks[s.inodes[ip].addrs[12]], 4 * (k - 12);
      Slot(s, ip, k) == b[o] + 0x100 * b[o + 1] + 0x1_0000 * b[o + 2] + 0x100_0000 * b[o + 3]
  {
    if k >= 12 && s.inodes[ip].addrs[12] != 0 { WordAt(s.blocks[s.inodes[ip].addrs[12]], k - 12); }
  }

  /** own says exactly which block is in which slot, so no block is in two; owned blocks are
      data blocks and are marked in the bitmap. */
  ghost predicate Owned(s: FS, own: Owners) {
    && Shaped(s)
    && (forall b :: b in own ==>
         && s.sb.datastart <= b < s.sb.size && s.used[b]
         && own[b].inum < |s.inodes| && own[b].slot <= MAXFILE && Slot(s, own[b].inum, own[b].slot) == b)
    && (forall i, k :: 0 <= i < |s.inodes| && 0 <= k <= MAXFILE && Slot(s, i, k) != 0 ==>
         Slot(s, i, k) in own && own[Slot(s, i, k)] == Owner(i, k))
  }

  /** The first n data slots are in use, and the indirect block exactly if it is needed. */
  ghost predicate Mapped(s: FS, ip: nat, n: int)
    requires Shaped(s) && ip < |s.inodes|
  {
    && 0 <= n <= MAXFILE
    && (forall k :: 0 <= k < MAXFILE ==> (Slot(s, ip, k) != 0 <==> k < n))
    && (Slot(s, ip, MAXFILE) != 0 <==> n > NDIRECT)
  }

  /** Blocks that a file of the given size needs. */
  function NBlocks(size: nat): (n: nat) {
    (size + BSIZE - 1) / BSIZE
  }

  /** Byte i of an inode's data slots; a slot without a block reads as zero. */
  function Byte(s: FS, ip: nat, i: nat): (c: int)
    requires Shaped(s) && ip < |s.inodes| && i < MAXFILE * BSIZE
  {
    var b := Slot(s, ip, i / BSIZE);
    if b == 0 then 0 else BlockByte(s, b, i % BSIZE)
  }
  function BlockByte(s: FS, b: int, o: nat): (c: int)
    requires Shaped(s) && o < BSIZE
  {
    if 0 <= b < |s.blocks| then s.blocks[b][o] else 0
  }

  // ----- allocating -----

  /** balloc of free block b: mark it and zero it. */
  function Alloc(s: FS, b: nat): (r: FS)
    requires Shaped(s) && b < s.sb.size
  {
    s.(used := s.used[b := true], blocks := s.blocks[b := Zero()])
  }

  lemma AllocSlots(s: FS, own: Owners, b: nat, i: nat, k: nat)
    requires Owned(s, own) && b < s.sb.size && !s.used[b] && i < |s.inodes| && k <= MAXFILE
    ensures Shaped(Alloc(s, b)) && Slot(Alloc(s, b), i, k) == Slot(s, i, k)
  {
    assert Slot(s, i, MAXFILE) != b;
  }

  /** A new block belongs to nobody, and allocating it changes no slot and no byte. */
  lemma AllocOwned(s: FS, own: Owners, b: nat)
    requires Owned(s, own) && b < s.sb.size && !s.used[b]
    ensures Owned(Alloc(s, b), own) && b !in own && b >= s.sb.datastart
    ensures forall i, k :: 0 <= i < |s.inodes| && 0 <= k <= MAXFILE ==> Slot(Alloc(s, b), i, k) == Slot(s, i, k)
  {
    forall i, k | 0 <= i < |s.inodes| && 0 <= k <= MAXFILE
      ensures Shaped(Alloc(s, b)) && Slot(Alloc(s, b), i, k) == Slot(s, i, k)
    {
      AllocSlots(s, own, b, i, k);
    }
  }

  lemma AllocByte(s: FS, own: Owners, b: nat, ip: nat, i: nat)
    requires Owned(s, own) && b < s.sb.size && !s.used[b] && ip < |s.inodes| && i < MAXFILE * BSIZE
    ensures Shaped(Alloc(s, b)) && Byte(Alloc(s, b), ip, i) == Byte(s, ip, i)
  {
    AllocSlots(s, own, b, ip, i / BSIZE);
  }

  // ----- attaching -----

  /** bmap's stores: block b goes into an empty slot. */
  function Attach(s: FS, ip: nat, k: nat, b: nat): (r: FS)
    requires Shaped(s) && ip < |s.inodes| && k <= MAXFILE && b < s.sb.size
    requires NDIRECT <= k < MAXFILE ==> s.inodes[ip].addrs[NDIRECT] != 0
  {
    var f := s.inodes[ip];
    if k < NDIRECT then s.(inodes := s.inodes[ip := f.(addrs := f.addrs[k := b])])
    else if k == MAXFILE then s.(inodes := s.inodes[ip := f.(addrs := f.addrs[NDIRECT := b])])
    else
      var ind := f.addrs[NDIRECT];
      s.(blocks := s.blocks[ind := SetWord(s.blocks[ind], k - NDIRECT, b)])
  }

  /** A block that balloc just returned: marked, zeroed, and in no slot. */
  ghost predicate NewBlock(s: FS, own: Owners, b: nat) {
    b < |s.used| && b < |s.blocks| && s.used[b] && b >= s.sb.datastart && b !in own && s.blocks[b] == Zero()
  }

  lemma {:induction false} WordZero(b: Block, j: nat)
    requires |b| >= 4 * (j + 1) && forall i :: 0 <= i < |b| ==> b[i] == 0
    ensures Word(b, j) == 0
  {
    if j > 0 { WordZero(b[4..], j - 1); }
  }

  /** An empty slot that bmap may fill with the new block b. */
  ghost predicate Attachable(s: FS, own: Owners, ip: nat, k: nat, b: nat) {
    && Owned(s, own) && NewBlock(s, own, b)
    && ip < |s.inodes| && k <= MAXFILE && Slot(s, ip, k) == 0
    && (NDIRECT <= k < MAXFILE ==> s.inodes[ip].addrs[NDIRECT] != 0)
  }

  lemma AttachEntry(s: FS, own: Owners, ip: nat, k: nat, b: nat, i: nat, j: nat)
    requires Attachable(s, own, ip, k, b) && NDIRECT <= k < MAXFILE && i < |s.inodes| && j <= MAXFILE
    ensures Shaped(Attach(s, ip, k, b))
    ensures Slot(Attach(s, ip, k, b), i, j) == if i == ip && j == k then b else Slot(s, i, j)
  {
    var ind := s.inodes[ip].addrs[NDIRECT];
    assert Slot(s, ip, MAXFILE) == ind;
    if NDIRECT <= j < MAXFILE && s.inodes[i].addrs[NDIRECT] != 0 {
      assert Slot(s, i, MAXFILE) == s.inodes[i].addrs[NDIRECT];
      if i == ip { WordRoundTrip(s.blocks[ind], k - NDIRECT, b, j - NDIRECT); }
    }
  }

  lemma AttachAddr(s: FS, own: Owners, ip: nat, k: nat, b: nat, i: nat, j: nat)
    requires Attachable(s, own, ip, k, b) && !(NDIRECT <= k < MAXFILE) && i < |s.inodes| && j <= MAXFILE
    ensures Shaped(Attach(s, ip, k, b))
    ensures Slot(Attach(s, ip, k, b), i, j) == if i == ip && j == k then b else Slot(s, i, j)
  {
    if k == MAXFILE && i == ip && NDIRECT <= j < MAXFILE { WordZero(Zero(), j - NDIRECT); }
  }

  /** Attaching changes that slot and no other. */
  lemma AttachSlots(s: FS, own: Owners, ip: nat, k: nat, b: nat, i: nat, j: nat)
    requires Attachable(s, own, ip, k, b) && i < |s.inodes| && j <= MAXFILE
    ensures Shaped(Attach(s, ip, k, b))
    ensures Slot(Attach(s, ip, k, b), i, j) == if i == ip && j == k then b else Slot(s, i, j)
  {
    if NDIRECT <= k < MAXFILE { AttachEntry(s, own, ip, k, b, i, j); } else { AttachAddr(s, own, ip, k, b, i, j); }
  }

  lemma AttachOwned(s: FS, own: Owners, ip: nat, k: nat, b: nat)
    requires Attachable(s, own, ip, k, b)
    ensures Owned(Attach(s, ip, k, b), own[b := Owner(ip, k)])
    ensures forall i, j :: 0 <= i < |s.inodes| && 0 <= j <= MAXFILE ==>
      Slot(Attach(s, ip, k, b), i, j) == if i == ip && j == k then b else Slot(s, i, j)
  {
    hide Slot, SetWord;
    var r := Attach(s, ip, k, b);
    forall i, j | 0 <= i < |s.inodes| && 0 <= j <= MAXFILE
      ensures Shaped(r) && Slot(r, i, j) == if i == ip && j == k then b else Slot(s, i, j)
    {
      AttachSlots(s, own, ip, k, b, i, j);
    }
  }

  /** Attaching a zeroed block changes no byte of any file. */
  lemma AttachByte(s: FS, own: Owners, ip: nat, k: nat, b: nat, f: nat, i: nat)
    requires Attachable(s, own, ip, k, b)
    requires f < |s.inodes| && i < MAXFILE * BSIZE
    ensures Shaped(Attach(s, ip, k, b))
    ensures Byte(Attach(s, ip, k, b), f, i) == Byte(s, f, i)
  {
    AttachSlots(s, own, ip, k, b, f, i / BSIZE);
    if NDIRECT <= k < MAXFILE { assert Slot(s, ip, MAXFILE) in own; }
  }

  // ----- writing data -----

  /** The block with piece copied over it at offset o. */
  function Patch(b: Block, o: nat, piece: seq<int>): (r: Block)
    requires |b| == BSIZE && o + |piece| <= BSIZE
    ensures |r| == BSIZE
  {
    b[..o] + piece + b[o + |piece|..]
  }

  /** writei's store: piece goes to byte offset off of data slot off / BSIZE. */
  function Put(s: FS, ip: nat, off: nat, piece: seq<int>): (r: FS)
    requires Shaped(s) && ip < |s.inodes| && off < MAXFILE * BSIZE && off % BSIZE + |piece| <= BSIZE
    requires 0 < Slot(s, ip, off / BSIZE) < s.sb.size
  {
    var b := Slot(s, ip, off / BSIZE);
    s.(blocks := s.blocks[b := Patch(s.blocks[b], off % BSIZE, piece)])
  }

  lemma PutSlots(s: FS, own: Owners, ip: nat, off: nat, piece: seq<int>, i: nat, k: nat)
    requires Owned(s, own) && ip < |s.inodes| && off < MAXFILE * BSIZE && off % BSIZE + |piece| <= BSIZE
    requires 0 < Slot(s, ip, off / BSIZE) < s.sb.size && i < |s.inodes| && k <= MAXFILE
    ensures Shaped(Put(s, ip, off, piece)) && Slot(Put(s, ip, off, piece), i, k) == Slot(s, i, k)
  {
    assert Slot(s, i, MAXFILE) != Slot(s, ip, off / BSIZE);
  }

  lemma PutOwned(s: FS, own: Owners, ip: nat, off: nat, piece: seq<int>)
    requires Owned(s, own) && ip < |s.inodes| && off < MAXFILE * BSIZE && off % BSIZE + |piece| <= BSIZE
    requires 0 < Slot(s, ip, off / BSIZE) < s.sb.size
    ensures Owned(Put(s, ip, off, piece), own)
    ensures forall i, k :: 0 <= i < |s.inodes| && 0 <= k <= MAXFILE ==>
      Slot(Put(s, ip, off, piece), i, k) == Slot(s, i, k)
  {
    var r := Put(s, ip, off, piece);
    forall i, k | 0 <= i < |s.inodes| && 0 <= k <= MAXFILE ensures Shaped(r) && Slot(r, i, k) == Slot(s, i, k) {
      PutSlots(s, own, ip, off, piece, i, k);
    }
  }

  /** Exactly the bytes off, off + 1, ... of that one file become piece. */
  lemma PutByte(s: FS, own: Owners, ip: nat, off: nat, piece: seq<int>, f: nat, i: nat)
    requires Owned(s, own) && ip < |s.inodes| && off < MAXFILE * BSIZE && off % BSIZE + |piece| <= BSIZE
    requires 0 < Slot(s, ip, off / BSIZE) < s.sb.size && f < |s.inodes| && i < MAXFILE * BSIZE
    ensures Shaped(Put(s, ip, off, piece))
    ensures Byte(Put(s, ip, off, piece), f, i)
      == if f == ip && off <= i < off + |piece| then piece[i - off] else Byte(s, f, i)
  {
    PutSlots(s, own, ip, off, piece, f, i / BSIZE);
    var b := Slot(s, ip, off / BSIZE);
    assert b in own && own[b] == Owner(ip, off / BSIZE);
    if f == ip && i / BSIZE == off / BSIZE {
      assert i - off == i % BSIZE - off % BSIZE;
    } else if f == ip {
      assert !(off <= i < off + |piece|);
    }
  }
}
