/** File data (fs.c, file.c): balloc, bfree, bmap, readi, writei, iupdate, itrunc and
    filewrite on a volume, with the blocks that each transaction logs. */
module Files {
  import opened Params
  import opened Inode
  import opened WriteLog

  const MAXBYTES := MAXFILE * BSIZE
  const UINT := 0x1_0000_0000

  /** The blocks an inode holds are those its size needs. */
  ghost predicate Settled(s: FS, f: nat)
    requires Shaped(s) && f < |s.inodes|
  {
    s.inodes[f].size <= MAXBYTES && Mapped(s, f, NBlocks(s.inodes[f].size))
  }

  /** Inode ip holds its first n blocks; every other inode is settled and on disk. */
  ghost predicate OpenAt(s: FS, own: Owners, ip: nat, n: int) {
    && Owned(s, own) && ip < |s.inodes| && Mapped(s, ip, n)
    && forall f :: 0 <= f < |s.inodes| && f != ip ==> Settled(s, f) && s.dinodes[f] == s.inodes[f]
  }

  /** Inode ip holds n data blocks and has an indirect block. */
  ghost predicate HasIndirect(s: FS, own: Owners, ip: nat, n: int) {
    && Owned(s, own) && ip < |s.inodes| && NDIRECT <= n <= MAXFILE
    && (forall k :: 0 <= k < MAXFILE ==> (Slot(s, ip, k) != 0 <==> k < n))
    && Slot(s, ip, MAXFILE) != 0
    && forall f :: 0 <= f < |s.inodes| && f != ip ==> Settled(s, f) && s.dinodes[f] == s.inodes[f]
  }

  /** The contents of file f. */
  ghost function File(s: FS, f: nat): (c: seq<int>)
    requires Shaped(s) && f < |s.inodes| && s.inodes[f].size <= MAXBYTES
  {
    seq(s.inodes[f].size, i requires 0 <= i < s.inodes[f].size => Byte(s, f, i))
  }

  /** What t may differ in from s while inode ip is being extended: not in any size, not in
      the disk inodes, not in another inode, not in an indirect block already there. */
  ghost predicate Extends(s: FS, t: FS, ip: nat) {
    && t.sb == s.sb && t.dinodes == s.dinodes && |t.inodes| == |s.inodes| && ip < |s.inodes|
    && t.inodes[ip].size == s.inodes[ip].size
    && |s.inodes[ip].addrs| == NDIRECT + 1 && |t.inodes[ip].addrs| == NDIRECT + 1
    && (s.inodes[ip].addrs[NDIRECT] != 0 ==> t.inodes[ip].addrs[NDIRECT] == s.inodes[ip].addrs[NDIRECT])
    && forall f :: 0 <= f < |s.inodes| && f != ip ==> t.inodes[f] == s.inodes[f]
  }

  /** Bytes off, off + 1, ... of file ip are src in t; every other byte is as in s. */
  ghost predicate BytesWritten(s: FS, t: FS, ip: nat, off: nat, src: seq<int>) {
    && Shaped(s) && Shaped(t) && |t.inodes| == |s.inodes|
    && forall f, i :: 0 <= f < |s.inodes| && 0 <= i < MAXBYTES ==>
      Byte(t, f, i) == if f == ip && off <= i < off + |src| then src[i - off] else Byte(s, f, i)
  }

  // ----- steps of bmap and writei, on values -----

  /** Allocate b and put it in slot k. */
  function Grow(s: FS, ip: nat, k: nat, b: nat): (r: FS)
    requires Shaped(s) && b < s.sb.size && ip < |s.inodes| && k <= MAXFILE && Shaped(Alloc(s, b))
    requires NDIRECT <= k < MAXFILE ==> s.inodes[ip].addrs[NDIRECT] != 0
  {
    Attach(Alloc(s, b), ip, k, b)
  }

  /** t is s with block b added in slot k of inode ip. */
  ghost predicate Grew(s: FS, own: Owners, t: FS, own1: Owners, ip: nat, k: nat, b: nat) {
    && Owned(s, own) && Owned(t, own1) && 0 < b < s.sb.size && k <= MAXFILE
    && Extends(s, t, ip) && BytesWritten(s, t, ip, 0, []) && !s.used[b] && t.used == s.used[b := true]
    && (forall i, j :: 0 <= i < |s.inodes| && 0 <= j <= MAXFILE ==>
         Slot(t, i, j) == if i == ip && j == k then b else Slot(s, i, j))
  }

  /** Allocating a block and attaching it to an empty slot. */
  lemma GrowGrew(s: FS, own: Owners, ip: nat, k: nat, b: nat)
    requires Owned(s, own) && b < s.sb.size && !s.used[b] && ip < |s.inodes| && k <= MAXFILE && Slot(s, ip, k) == 0
    requires NDIRECT <= k < MAXFILE ==> s.inodes[ip].addrs[NDIRECT] != 0
    ensures Shaped(Alloc(s, b)) && Grew(s, own, Grow(s, ip, k, b), own[b := Owner(ip, k)], ip, k, b)
  {
    AllocOwned(s, own, b);
    AttachOwned(Alloc(s, b), own, ip, k, b);
    var t := Grow(s, ip, k, b);
    forall f, i | 0 <= f < |s.inodes| && 0 <= i < MAXBYTES ensures Byte(t, f, i) == Byte(s, f, i) {
      AllocByte(s, own, b, f, i);
      AttachByte(Alloc(s, b), own, ip, k, b, f, i);
    }
  }

  /** Growing keeps the other inodes settled. */
  lemma GrewSettled(s: FS, own: Owners, t: FS, own1: Owners, ip: nat, k: nat, b: nat, f: nat)
    requires Grew(s, own, t, own1, ip, k, b) && f < |s.inodes| && f != ip && Settled(s, f)
    ensures Settled(t, f) && t.dinodes[f] == s.dinodes[f] && t.inodes[f] == s.inodes[f]
  {
  }

  lemma GrewMapped(s: FS, own: Owners, t: FS, own1: Owners, ip: nat, n: nat, b: nat)
    requires n < MAXFILE && Grew(s, own, t, own1, ip, n, b)
    requires forall k :: 0 <= k < MAXFILE ==> (Slot(s, ip, k) != 0 <==> k < n)
    requires Slot(s, ip, MAXFILE) != 0 <==> n >= NDIRECT
    ensures Mapped(t, ip, n + 1)
  {
  }

  lemma GrewFree(s: FS, own: Owners, t: FS, own1: Owners, ip: nat, k: nat, b: nat)
    requires Grew(s, own, t, own1, ip, k, b)
    ensures b in FreeBlocks(s) && FreeBlocks(t) == FreeBlocks(s) - {b} && |FreeBlocks(t)| == |FreeBlocks(s)| - 1
  {
    hide Slot, BytesWritten;
    assert FreeBlocks(t) == FreeBlocks(s) - {b};
  }

  lemma GrewExtended(s: FS, own: Owners, t: FS, own1: Owners, ip: nat, n: nat, b: nat)
    requires Grew(s, own, t, own1, ip, n, b) && n < MAXFILE && n != NDIRECT
    ensures Extended(s, t, ip, n, n + 1)
  {
    hide BytesWritten, FreeBlocks;
    GrewFree(s, own, t, own1, ip, n, b);
    hide Slot;
  }

  /** The first indirect entry: the indirect block, then the data block. */
  lemma GrewTwice(s: FS, own: Owners, t: FS, own1: Owners, u: FS, own2: Owners, ip: nat, ind: nat, b: nat)
    requires Grew(s, own, t, own1, ip, MAXFILE, ind) && Grew(t, own1, u, own2, ip, NDIRECT, b)
    ensures Extended(s, u, ip, NDIRECT, NDIRECT + 1)
  {
    hide BytesWritten, FreeBlocks, Slot, Shaped;
    GrewFree(s, own, t, own1, ip, MAXFILE, ind);
    GrewFree(t, own1, u, own2, ip, NDIRECT, b);
  }

  lemma GrewTrans(s: FS, t: FS, u: FS, ip: nat)
    requires Extends(s, t, ip) && Extends(t, u, ip) && BytesWritten(s, t, ip, 0, []) && BytesWritten(t, u, ip, 0, [])
    ensures Extends(s, u, ip) && BytesWritten(s, u, ip, 0, [])
  {
  }

  /** bmap's outcome: addr is in slot bn, inode ip holds n blocks, and no byte changed. */
  ghost predicate Mapping(s: FS, t: FS, own: Owners, ip: nat, bn: nat, addr: nat, n: nat) {
    && OpenAt(t, own, ip, n) && bn < MAXFILE
    && 0 < addr < t.sb.size && addr == Slot(t, ip, bn)
    && Extends(s, t, ip) && BytesWritten(s, t, ip, 0, [])
  }

  /** What bmap logs when it allocates block b for slot k: a bitmap block, the block that
      balloc zeroed, and for an indirect entry the indirect block. */
  ghost predicate GrowLogged(s: FS, ip: nat, k: nat, b: nat, l0: set<nat>, l1: set<nat>) {
    && Shaped(s) && ip < |s.inodes|
    && l1 == l0 + {BBlock(s.sb, b), b} + (if NDIRECT <= k < MAXFILE then {s.inodes[ip].addrs[NDIRECT]} else {})
  }

  /** What bmap logs when it extends an inode, whose indirect block is then ind, by block b
      for data slot bn: a bitmap block, b itself, from slot NDIRECT on the indirect block,
      and the latter's bitmap block if it is new. */
  ghost predicate MapLogged(sb: Super, ind: nat, bn: nat, b: nat, l0: set<nat>, l1: set<nat>) {
    l1 == l0 + (if bn == NDIRECT then {BBlock(sb, ind), ind} else {})
             + {BBlock(sb, b), b} + (if bn >= NDIRECT then {ind} else {})
  }

  ghost predicate MappedNew(s: FS, ip: nat, bn: nat, b: nat, l0: set<nat>, l1: set<nat>) {
    Shaped(s) && ip < |s.inodes| && MapLogged(s.sb, s.inodes[ip].addrs[NDIRECT], bn, b, l0, l1)
  }

  ghost predicate IndirectIs(s: FS, ip: nat, ind: nat) {
    Shaped(s) && ip < |s.inodes| && s.inodes[ip].addrs[NDIRECT] == ind
  }

  /** t is s with an indirect block ind for inode ip, which holds n data blocks. */
  ghost predicate WithIndirect(s: FS, t: FS, own: Owners, ip: nat, n: nat, ind: nat) {
    && HasIndirect(t, own, ip, n) && ind == Slot(t, ip, MAXFILE)
    && Extends(s, t, ip) && BytesWritten(s, t, ip, 0, [])
  }

  lemma WithShape(s: FS, t: FS, own: Owners, ip: nat, n: nat, ind: nat)
    requires WithIndirect(s, t, own, ip, n, ind)
    ensures Shaped(t) && ip < |t.inodes| && n <= MAXFILE && HasIndirect(t, own, ip, n)
  {
  }

  ghost predicate Stored(s: FS, t: FS, ip: nat, off: nat, piece: seq<int>) {
    Extends(s, t, ip) && BytesWritten(s, t, ip, off, piece)
  }

  /** Storing data in a block of the file changes those bytes only. */
  lemma PutStep(s: FS, own: Owners, ip: nat, off: nat, piece: seq<int>, n: nat)
    requires OpenAt(s, own, ip, n) && off < MAXBYTES && off % BSIZE + |piece| <= BSIZE
    requires 0 < Slot(s, ip, off / BSIZE) < s.sb.size
    ensures OpenAt(Put(s, ip, off, piece), own, ip, n) && Stored(s, Put(s, ip, off, piece), ip, off, piece)
    ensures SameSlots(s, Put(s, ip, off, piece), ip)
  {
    PutOwned(s, own, ip, off, piece);
    hide Slot, Byte, Patch;
    var t := Put(s, ip, off, piece);
    forall f, i | 0 <= f < |s.inodes| && 0 <= i < MAXBYTES
      ensures Byte(t, f, i) == if f == ip && off <= i < off + |piece| then piece[i - off] else Byte(s, f, i)
    {
      PutByte(s, own, ip, off, piece, f, i);
    }
  }

  lemma BytesThen(s: FS, t: FS, u: FS, ip: nat, off: nat, piece: seq<int>)
    requires Extends(s, t, ip) && Extends(t, u, ip) && BytesWritten(s, t, ip, 0, [])
    requires BytesWritten(t, u, ip, off, piece)
    ensures Extends(s, u, ip) && BytesWritten(s, u, ip, off, piece)
  {
  }

  ghost predicate AllUsed(s: FS) {
    forall c :: 0 <= c < |s.used| ==> s.used[c]
  }

  // ----- writei's loop -----

  /** Data slots in use, and rounds taken, after tot bytes were written at off to a file that
      held n0 blocks. */
  function Held(n0: nat, off: nat, tot: nat): (n: nat) {
    if tot == 0 || NBlocks(off + tot) < n0 then n0 else NBlocks(off + tot)
  }
  function Rounds(off: nat, tot: nat): (r: nat) {
    if tot == 0 then 0 else (off + tot - 1) / BSIZE - off / BSIZE + 1
  }

  lemma HeldGrows(n0: nat, off: nat, tot: nat, more: nat)
    requires tot <= more
    ensures Held(n0, off, 0) == n0 <= Held(n0, off, tot) <= Held(n0, off, more)
    ensures Needed(n0, Held(n0, off, tot)) <= Needed(n0, Held(n0, off, more))
  {
    assert NBlocks(off + tot) <= NBlocks(off + more);
  }

  /** What a round writes: the rest, or up to the end of the block. */
  function PieceLen(o: nat, left: nat): (m: nat)
    ensures o % BSIZE + m <= BSIZE && m <= left && (left > 0 ==> m > 0)
    ensures m < left ==> (o + m) % BSIZE == 0
  {
    if left < BSIZE - o % BSIZE then left else BSIZE - o % BSIZE
  }

  /** One round: m bytes at off + tot. */
  lemma RoundArith(size: nat, off: nat, tot: nat, m: nat)
    requires off <= size && 1 <= m && (off + tot) % BSIZE + m <= BSIZE
    requires tot > 0 ==> (off + tot) % BSIZE == 0
    ensures var n0, o := NBlocks(size), off + tot;
      && o / BSIZE <= Held(n0, off, tot)
      && Held(n0, off, tot + m) == Grown(Held(n0, off, tot), o / BSIZE == Held(n0, off, tot))
      && Rounds(off, tot + m) == Rounds(off, tot) + 1
      && o / BSIZE == off / BSIZE + Rounds(off, tot)
  {
    var o := off + tot;
    assert (o + m - 1) / BSIZE == o / BSIZE;
    assert NBlocks(o + m) == o / BSIZE + 1;
    if tot > 0 {
      assert o == (o / BSIZE) * BSIZE;
      assert NBlocks(o) == o / BSIZE;
      assert (o - 1) / BSIZE == o / BSIZE - 1;
    } else {
      assert o / BSIZE <= NBlocks(size);
    }
  }

  lemma SliceStep(src: seq<int>, tot: nat, m: nat)
    requires tot + m <= |src|
    ensures src[..tot] + src[tot..tot + m] == src[..tot + m] && |src[..tot]| == tot && |src[tot..tot + m]| == m
  {
  }

  /** A round stores piece; it logs the block and, if it extends the inode by slot n, what bmap logs. */
  ghost predicate RoundDone(s: FS, t: FS, ip: nat, off: nat, piece: seq<int>, n: nat, grow: bool, l0: set<nat>,
          l1: set<nat>) {
    && Stored(s, t, ip, off, piece) && off / BSIZE < MAXFILE && Extended(s, t, ip, n, Grown(n, grow)) && Shaped(t)
    && (!grow ==> t.inodes == s.inodes && SameSlots(s, t, ip) && l1 == l0 + {Slot(t, ip, off / BSIZE)})
    && (grow ==> Slot(t, ip, n) >= 0 && MappedNew(t, ip, n, Slot(t, ip, n), l0, l1))
  }

  lemma MappingFacts(s: FS, t: FS, own: Owners, ip: nat, bn: nat, addr: nat, n: nat)
    requires Mapping(s, t, own, ip, bn, addr, n)
    ensures OpenAt(t, own, ip, n) && Shaped(t) && ip < |t.inodes| && 0 < addr < t.sb.size && addr == Slot(t, ip, bn)
  {
  }

  lemma RoundIs(s0: FS, s1: FS, s: FS, own: Owners, ip: nat, off: nat, piece: seq<int>, n: nat, grow: bool, addr: nat,
                l0: set<nat>, l1: set<nat>, l: set<nat>)
    requires off < MAXBYTES && grow == (off / BSIZE == n) && Mapping(s0, s1, own, ip, off / BSIZE, addr, Grown(n, grow))
    requires Extended(s0, s1, ip, n, Grown(n, grow)) && Stored(s1, s, ip, off, piece) && SameSlots(s1, s, ip)
    requires s.inodes == s1.inodes
    requires if grow then MappedNew(s1, ip, n, addr, l0, l1) else s1 == s0 && l1 == l0
    requires l == l1 + {addr}
    ensures RoundDone(s0, s, ip, off, piece, n, grow, l0, l)
  {
    hide OpenAt, BytesWritten, Slot, Shaped;
    BytesThen(s0, s1, s, ip, off, piece);
    ExtendedSame(s0, s1, s, ip, n, Grown(n, grow));
    if grow {
      assert l == l1;
    }
  }

  ghost predicate SameSlots(s: FS, t: FS, ip: nat) {
    && Shaped(s) && Shaped(t) && ip < |s.inodes| && ip < |t.inodes| && t.sb == s.sb && t.used == s.used
    && forall k :: 0 <= k <= MAXFILE ==> Slot(t, ip, k) == Slot(s, ip, k)
  }

  function Grown(n: nat, grow: bool): (r: nat) {
    if grow then n + 1 else n
  }

  /** The volume in the middle of writei: xs is in place, the inode went from n0 to n blocks,
      and the rounds so far logged exactly l. */
  ghost predicate Progress(s0: FS, s: FS, ip: nat, off: nat, xs: seq<int>, n0: nat, n: nat, rounds: nat, l0: set<nat>,
          l: set<nat>) {
    && Stored(s0, s, ip, off, xs)
    && (n == n0 ==> s.inodes == s0.inodes)
    && RoundsLogged(s0, s, ip, off / BSIZE, rounds, n0, n, l0, l)
  }

  ghost predicate RoundsLogged(s0: FS, s: FS, ip: nat, lo: nat, rounds: nat, n0: nat, n: nat, l0: set<nat>,
          l: set<nat>) {
    && Extended(s0, s, ip, n0, n) && (rounds == 0 || lo + rounds <= n) && lo + rounds <= MAXFILE
    && l == l0 + LogSet(s, ip, lo, lo + rounds, n0, n)
  }

  lemma BytesAppend(s: FS, t: FS, u: FS, ip: nat, off: nat, xs: seq<int>, ys: seq<int>)
    requires Stored(s, t, ip, off, xs) && Stored(t, u, ip, off + |xs|, ys)
    ensures Stored(s, u, ip, off, xs + ys)
  {
  }

  lemma StoreLogged(s0: FS, s: FS, t: FS, ip: nat, lo: nat, rounds: nat, n0: nat, n: nat, l0: set<nat>, l: set<nat>,
          l1: set<nat>)
    requires RoundsLogged(s0, s, ip, lo, rounds, n0, n, l0, l) && SameSlots(s, t, ip) && lo + rounds < n
    requires l1 == l + {Slot(t, ip, lo + rounds)}
    ensures RoundsLogged(s0, t, ip, lo, rounds + 1, n0, n, l0, l1)
  {
    hide Slot, Shaped, LogSet;
    ExtendedSame(s0, s, t, ip, n0, n);
    LogSetSame(s, t, ip, lo, lo + rounds, n0, n);
    LogSetStore(t, ip, lo, lo + rounds, n0, n);
  }

  lemma GrowthLogged(s0: FS, s: FS, t: FS, ip: nat, lo: nat, rounds: nat, n0: nat, n: nat, l0: set<nat>, l: set<nat>,
          l1: set<nat>)
    requires RoundsLogged(s0, s, ip, lo, rounds, n0, n, l0, l) && Extended(s, t, ip, n, n + 1) && lo + rounds == n
    requires Slot(t, ip, n) >= 0 && MappedNew(t, ip, n, Slot(t, ip, n), l, l1)
    ensures RoundsLogged(s0, t, ip, lo, rounds + 1, n0, n + 1, l0, l1)
  {
    hide Slot, LogSet, MapLogged, Bitmap, Shaped;
    IndirectSlot(t, ip);
    var ind := t.inodes[ip].addrs[NDIRECT];
    ExtendedTrans(s0, s, t, ip, n0, n, n + 1);
    LogSetGrow(s, t, ip, lo, n0, n);
    MapLoggedIs(t.sb, ind, n, Slot(t, ip, n), l0, LogSet(s, ip, lo, n, n0, n), l, l1);
  }

  lemma IndirectSlot(s: FS, ip: nat)
    requires Shaped(s) && ip < |s.inodes|
    ensures |s.inodes[ip].addrs| == NDIRECT + 1 && Slot(s, ip, MAXFILE) == s.inodes[ip].addrs[NDIRECT]
  {
  }

  lemma MapLoggedIs(sb: Super, ind: nat, n: nat, b: nat, l0: set<nat>, a: set<int>, l: set<nat>, l1: set<nat>)
    requires MapLogged(sb, ind, n, b, l, l1) && l == l0 + a
    ensures l1 == l0 + (a + {b, Bitmap(sb, b)}
      + (if n >= NDIRECT then {ind} else {}) + (if n == NDIRECT then {Bitmap(sb, ind)} else {}))
  {
    assert Bitmap(sb, b) == BBlock(sb, b) && Bitmap(sb, ind) == BBlock(sb, ind);
    hide BBlock;
  }

  /** One round more. */
  lemma ProgressStep(s0: FS, s: FS, t: FS, ip: nat, off: nat, xs: seq<int>, ys: seq<int>, n0: nat, n: nat, rounds: nat,
          grow: bool,
                     l0: set<nat>, l: set<nat>, l1: set<nat>)
    requires Progress(s0, s, ip, off, xs, n0, n, rounds, l0, l)
    requires RoundDone(s, t, ip, off + |xs|, ys, n, grow, l, l1)
    requires (off + |xs|) / BSIZE == off / BSIZE + rounds
    requires (if grow then off / BSIZE + rounds == n else off / BSIZE + rounds < n)
    ensures Progress(s0, t, ip, off, xs + ys, n0, Grown(n, grow), rounds + 1, l0, l1)
  {
    hide Slot, Shaped, LogSet, BytesWritten, RoundsLogged, Extended, MappedNew;
    BytesAppend(s0, s, t, ip, off, xs, ys);
    GrowthOnly(s0, s, ip, off / BSIZE, rounds, n0, n, l0, l);
    if grow {
      GrowthLogged(s0, s, t, ip, off / BSIZE, rounds, n0, n, l0, l, l1);
    } else {
      StoreLogged(s0, s, t, ip, off / BSIZE, rounds, n0, n, l0, l, l1);
    }
  }

  lemma GrowthOnly(s0: FS, s: FS, ip: nat, lo: nat, rounds: nat, n0: nat, n: nat, l0: set<nat>, l: set<nat>)
    requires RoundsLogged(s0, s, ip, lo, rounds, n0, n, l0, l)
    ensures n0 <= n
  {
  }

  lemma ProgressFree(s0: FS, s: FS, ip: nat, off: nat, xs: seq<int>, n0: nat, n: nat, rounds: nat, l0: set<nat>,
          l: set<nat>)
    requires Progress(s0, s, ip, off, xs, n0, n, rounds, l0, l)
    ensures n0 <= n && |FreeBlocks(s)| == |FreeBlocks(s0)| - Needed(n0, n)
  {
  }

  // ----- what writei does to files -----

  /** The contents c with src written at off, extending it if need be. */
  function Splice(c: seq<int>, off: nat, src: seq<int>): (r: seq<int>)
    requires off <= |c|
  {
    c[..off] + src + (if off + |src| <= |c| then c[off + |src|..] else [])
  }

  /** The test off + n < off detects exactly the 32-bit overflow. */
  lemma NoWrap(off: nat, n: nat)
    requires off < UINT && n < UINT
    ensures (off + n) % UINT < off <==> off + n >= UINT
    ensures off + n < UINT ==> (off + n) % UINT == off + n
  {
  }

  /** f is f0 with src at off, byte by byte. */
  ghost predicate Overwritten(f0: seq<int>, f: seq<int>, off: nat, src: seq<int>) {
    && off <= |f0| && |f| == (if off + |src| > |f0| then off + |src| else |f0|)
    && forall k :: 0 <= k < |f| ==> f[k] == if off <= k < off + |src| then src[k - off] else f0[k]
  }

  lemma SpliceBytes(c: seq<int>, off: nat, src: seq<int>, f: seq<int>)
    requires off <= |c|
    ensures f == Splice(c, off, src) <==> Overwritten(c, f, off, src)
  {
    assert Overwritten(c, Splice(c, off, src), off, src);
    if Overwritten(c, f, off, src) {
      assert forall k :: 0 <= k < |f| ==> f[k] == Splice(c, off, src)[k];
    }
  }

  /** File ip was written, every other file is as it was. */
  ghost predicate WroteFile(s0: FS, s: FS, ip: nat, off: nat, src: seq<int>) {
    && Shaped(s0) && Shaped(s) && |s.inodes| == |s0.inodes| && ip < |s.inodes|
    && (forall f :: 0 <= f < |s.inodes| ==> s0.inodes[f].size <= MAXBYTES && s.inodes[f].size <= MAXBYTES)
    && off <= s0.inodes[ip].size
    && File(s, ip) == Splice(File(s0, ip), off, src)
    && forall f :: 0 <= f < |s.inodes| && f != ip ==> File(s, f) == File(s0, f)
  }

  lemma WroteBytes(s0: FS, s: FS, ip: nat, off: nat, src: seq<int>)
    requires WroteFile(s0, s, ip, off, src)
    ensures Shaped(s0) && Shaped(s) && ip < |s0.inodes| && ip < |s.inodes|
    ensures s0.inodes[ip].size <= MAXBYTES && s.inodes[ip].size <= MAXBYTES
    ensures Overwritten(File(s0, ip), File(s, ip), off, src)
  {
    SpliceBytes(File(s0, ip), off, src, File(s, ip));
  }

  /** The end of writei: a longer file gets its new size. */
  function NewSize(size: nat, end: nat): (r: nat) {
    if end > size then end else size
  }

  lemma SameFile(s: FS, t: FS, f: nat)
    requires Shaped(s) && Shaped(t) && f < |s.inodes| && f < |t.inodes|
    requires s.inodes[f].size == t.inodes[f].size <= MAXBYTES
    requires forall i :: 0 <= i < MAXBYTES ==> Byte(t, f, i) == Byte(s, f, i)
    ensures File(t, f) == File(s, f)
  {
  }

  lemma SplicedFile(s: FS, t: FS, ip: nat, off: nat, src: seq<int>)
    requires Shaped(s) && Shaped(t) && ip < |s.inodes| && ip < |t.inodes|
    requires off <= s.inodes[ip].size <= MAXBYTES && off + |src| <= MAXBYTES
    requires t.inodes[ip].size == NewSize(s.inodes[ip].size, off + |src|)
    requires forall i :: 0 <= i < MAXBYTES ==>
      Byte(t, ip, i) == if off <= i < off + |src| then src[i - off] else Byte(s, ip, i)
    ensures File(t, ip) == Splice(File(s, ip), off, src)
  {
    var c, d := Splice(File(s, ip), off, src), File(t, ip);
    assert |c| == |d|;
    forall i | 0 <= i < |d| ensures d[i] == c[i] {
    }
  }

  /** Setting the size of inode ip, which changes no block. */
  function Resize(s: FS, ip: nat, size: nat): (r: FS)
    requires ip < |s.inodes|
  {
    s.(inodes := s.inodes[ip := s.inodes[ip].(size := size)])
  }

  lemma ResizeSlots(s: FS, ip: nat, size: nat)
    requires Shaped(s) && ip < |s.inodes|
    ensures Shaped(Resize(s, ip, size))
    ensures forall f, k :: 0 <= f < |s.inodes| && 0 <= k <= MAXFILE ==> Slot(Resize(s, ip, size), f, k) == Slot(s, f, k)
  {
    var t := Resize(s, ip, size);
    assert Shaped(t);
    hide Shaped, Word;
  }

  lemma ResizeByte(s: FS, ip: nat, size: nat, f: nat, i: nat)
    requires Shaped(s) && ip < |s.inodes| && f < |s.inodes| && i < MAXBYTES
    ensures Shaped(Resize(s, ip, size)) && Byte(Resize(s, ip, size), f, i) == Byte(s, f, i)
  {
    ResizeSlots(s, ip, size);
    hide Slot;
  }

  lemma ResizeOpen(s: FS, own: Owners, ip: nat, n: nat, size: nat)
    requires OpenAt(s, own, ip, n)
    ensures OpenAt(Resize(s, ip, size), own, ip, n) && SameSlots(s, Resize(s, ip, size), ip)
    ensures forall f, i :: 0 <= f < |s.inodes| && 0 <= i < MAXBYTES ==> Byte(Resize(s, ip, size), f, i) == Byte(s, f, i)
  {
    ResizeSlots(s, ip, size);
    hide Slot, Byte;
    forall f, i | 0 <= f < |s.inodes| && 0 <= i < MAXBYTES ensures Byte(Resize(s, ip, size), f, i) == Byte(s, f, i) {
      ResizeByte(s, ip, size, f, i);
    }
  }

  /** After the loop and the size update, the whole write shows. */
  lemma WriteDone(s0: FS, s: FS, t: FS, ip: nat, off: nat, src: seq<int>)
    requires Stored(s0, s, ip, off, src) && off <= s0.inodes[ip].size && off + |src| <= MAXBYTES
    requires forall f :: 0 <= f < |s0.inodes| ==> s0.inodes[f].size <= MAXBYTES
    requires Shaped(t) && |t.inodes| == |s.inodes|
    requires t.inodes[ip].size == NewSize(s0.inodes[ip].size, off + |src|)
    requires forall f :: 0 <= f < |s.inodes| && f != ip ==> t.inodes[f] == s.inodes[f]
    requires forall f, i :: 0 <= f < |s.inodes| && 0 <= i < MAXBYTES ==> Byte(t, f, i) == Byte(s, f, i)
    ensures WroteFile(s0, t, ip, off, src)
  {
    forall f | 0 <= f < |t.inodes| && f != ip ensures File(t, f) == File(s0, f) {
      SameFile(s0, t, f);
    }
    SplicedFile(s0, t, ip, off, src);
  }

  /** filewrite writes at most this many bytes per transaction. */
  const CHUNK := ((MAXOPBLOCKS - 1 - 1 - 2) / 2) * 512

  /** Blocks a writei of n bytes logs at most: LogCost, and the inode block if it grows. */
  function WriteCost(size: nat, off: nat, n: nat): (c: int) {
    LogCost(Rounds(off, n), NBlocks(size), Held(NBlocks(size), off, n)) + (if off + n > size then 1 else 0)
  }

  /** What a writei of n bytes at off did to the log: exactly the blocks of LogSet, and the inode block if the file
      grew. */
  ghost predicate LoggedWrite(s0: FS, s: FS, ip: nat, off: nat, n: nat, l0: set<nat>, l: set<nat>) {
    && ip < |s0.inodes| && ip < |s.inodes|
    && var size := s0.inodes[ip].size;
    && var n0, hi := NBlocks(size), off / BSIZE + Rounds(off, n);
    && Extended(s0, s, ip, n0, Held(n0, off, n)) && hi <= MAXFILE
    && var inode := if off + n > size then {IBlock(s.sb, ip)} else {};
    && l == l0 + LogSet(s, ip, off / BSIZE, hi, n0, Held(n0, off, n)) + inode
  }

  lemma LoggedCard(s0: FS, s: FS, ip: nat, off: nat, n: nat, l0: set<nat>, l: set<nat>)
    requires LoggedWrite(s0, s, ip, off, n, l0, l)
    ensures |l| <= |l0| + WriteCost(s0.inodes[ip].size, off, n)
  {
    hide Slot, Shaped, Held, LogSet;
    var n0, hi := NBlocks(s0.inodes[ip].size), off / BSIZE + Rounds(off, n);
    var a := LogSet(s, ip, off / BSIZE, hi, n0, Held(n0, off, n));
    LogSetCard(s, ip, off / BSIZE, hi, n0, Held(n0, off, n));
    CardUnion(l0, a);
    CardUnion(l0 + a, {IBlock(s.sb, ip)});
  }

  lemma EndLogged(s0: FS, s1: FS, s: FS, ip: nat, off: nat, n: nat, l0: set<nat>, l1: set<nat>, l: set<nat>)
    requires ip < |s0.inodes| && SameSlots(s1, s, ip)
    requires var n0 := NBlocks(s0.inodes[ip].size);
      RoundsLogged(s0, s1, ip, off / BSIZE, Rounds(off, n), n0, Held(n0, off, n), l0, l1)
    requires l == l1 + if off + n > s0.inodes[ip].size then {IBlock(s.sb, ip)} else {}
    ensures LoggedWrite(s0, s, ip, off, n, l0, l)
  {
    hide Slot, Shaped, Held, LogSet, Rounds;
    var n0, hi := NBlocks(s0.inodes[ip].size), off / BSIZE + Rounds(off, n);
    ExtendedSame(s0, s1, s, ip, n0, Held(n0, off, n));
    LogSetSame(s1, s, ip, off / BSIZE, hi, n0, Held(n0, off, n));
  }

  /** A chunk of filewrite fits in the log space reserved for one operation, for every size,
      offset and alignment. */
  lemma ChunkFits(size: nat, off: nat, n: nat)
    requires off <= size && n <= CHUNK
    ensures WriteCost(size, off, n) <= MAXOPBLOCKS
  {
    if n > 0 {
      var first, last := off / BSIZE, (off + n - 1) / BSIZE;
      assert last - first <= 3;
      assert NBlocks(off + n) == last + 1;
      assert NBlocks(size) >= first;
      if off % BSIZE == 0 {
        assert last - first <= 2;
      } else {
        assert NBlocks(size) >= first + 1;
      }
    }
  }

  lemma ProgressStart(s: FS, ip: nat, off: nat, n0: nat, l: set<nat>)
    requires Shaped(s) && ip < |s.inodes| && n0 <= MAXFILE && off <= MAXBYTES
    ensures Progress(s, s, ip, off, [], n0, n0, 0, l, l)
  {
    hide Slot;
    ExtendedNone(s, ip, n0);
    LogSetNone(s, ip, off / BSIZE, n0);
  }

  /** The state when writei's loop has ended. */
  ghost predicate WriteLooped(s0: FS, s: FS, own: Owners, ip: nat, off: nat, src: seq<int>, l0: set<nat>, l: set<nat>) {
    && Shaped(s0) && ip < |s0.inodes|
    && var n0 := NBlocks(s0.inodes[ip].size);
    && var n := Held(n0, off, |src|);
    && OpenAt(s, own, ip, n) && Progress(s0, s, ip, off, src, n0, n, Rounds(off, |src|), l0, l)
  }

  /** Blocks a writei of n bytes at off has to allocate. */
  function WriteNeeds(size: nat, off: nat, n: nat): int { Needed(NBlocks(size), Held(NBlocks(size), off, n)) }

  lemma SizeBlocks(size: nat)
    requires size <= MAXBYTES
    ensures NBlocks(size) <= MAXFILE
  {
  }

  lemma LoopedSize(s0: FS, s: FS, own: Owners, ip: nat, off: nat, src: seq<int>, l0: set<nat>, l: set<nat>)
    requires Shaped(s0) && ip < |s0.inodes|
    requires var n0 := NBlocks(s0.inodes[ip].size); var n := Held(n0, off, |src|);
      OpenAt(s, own, ip, n) && Progress(s0, s, ip, off, src, n0, n, Rounds(off, |src|), l0, l)
    ensures WriteLooped(s0, s, own, ip, off, src, l0, l) && ip < |s.inodes| && ip < |s.dinodes|
    ensures s.inodes[ip].size == s0.inodes[ip].size
  {
    hide Mapped, Settled, RoundsLogged, BytesWritten;
  }

  /** A write inside the file allocates nothing. */
  lemma NoGrowth(size: nat, off: nat, n: nat)
    requires off <= size && (n == 0 || off + n <= size)
    ensures Held(NBlocks(size), off, n) == NBlocks(size)
  {
  }

  /** Writing an inode to its inode block changes no block and no file. */
  lemma DinodesOnly(s: FS, t: FS, own: Owners, ip: nat, n: nat)
    requires OpenAt(s, own, ip, n) && t == s.(dinodes := s.dinodes[ip := s.inodes[ip]])
    ensures OpenAt(t, own, ip, n) && t.dinodes[ip] == t.inodes[ip] && SameSlots(s, t, ip)
  {
    DinodesSlots(s, t, ip);
    hide Slot;
  }

  lemma DinodesSlots(s: FS, t: FS, ip: nat)
    requires Shaped(s) && ip < |s.inodes| && t == s.(dinodes := s.dinodes[ip := s.inodes[ip]])
    ensures Shaped(t) && forall f, k :: 0 <= f < |s.inodes| && 0 <= k <= MAXFILE ==> Slot(t, f, k) == Slot(s, f, k)
  {
    hide Word;
  }
  lemma DinodesFile(s0: FS, s: FS, t: FS, ip: nat, off: nat, src: seq<int>)
    requires WroteFile(s0, s, ip, off, src) && ip < |s.dinodes| && t == s.(dinodes := s.dinodes[ip := s.inodes[ip]])
    ensures WroteFile(s0, t, ip, off, src)
  {
    assert Shaped(t);
    forall f | 0 <= f < |s.inodes| ensures File(t, f) == File(s, f) {
      assert forall i :: 0 <= i < MAXBYTES ==> Byte(t, f, i) == Byte(s, f, i);
    }
  }

  /** Every inode is settled and on disk. */
  ghost predicate AllSettled(s: FS, own: Owners) {
    Owned(s, own) && forall f :: 0 <= f < |s.inodes| ==> Settled(s, f) && s.dinodes[f] == s.inodes[f]
  }

  lemma SettledFacts(s: FS, own: Owners)
    requires AllSettled(s, own)
    ensures Shaped(s) && |s.dinodes| == |s.inodes| && forall f :: 0 <= f < |s.inodes| ==>
      s.inodes[f].size <= MAXBYTES && s.dinodes[f] == s.inodes[f]
  {
    hide Slot, Mapped;
  }

  lemma OpenSettled(s: FS, own: Owners, ip: nat, n: nat)
    requires OpenAt(s, own, ip, n) && s.dinodes[ip] == s.inodes[ip] && s.inodes[ip].size <= MAXBYTES
    requires n == NBlocks(s.inodes[ip].size)
    ensures AllSettled(s, own)
  {
    hide Slot, Mapped;
  }

  /** The end of writei when the file grew: its size is set and the inode goes to disk. */
  lemma EndGrown(s0: FS, s1: FS, s: FS, own: Owners, ip: nat, off: nat, src: seq<int>, l0: set<nat>, l1: set<nat>,
          l: set<nat>)
    requires WriteLooped(s0, s1, own, ip, off, src, l0, l1) && off <= s0.inodes[ip].size < off + |src| <= MAXBYTES
    requires forall f :: 0 <= f < |s0.inodes| ==> s0.inodes[f].size <= MAXBYTES
    requires ip < |s1.dinodes|
    requires var s2 := Resize(s1, ip, off + |src|); s == s2.(dinodes := s2.dinodes[ip := s2.inodes[ip]])
    requires l == l1 + {IBlock(s.sb, ip)}
    ensures AllSettled(s, own) && WroteFile(s0, s, ip, off, src) && LoggedWrite(s0, s, ip, off, |src|, l0, l)
  {
    hide Slot, Shaped, Byte, Mapped, Settled, BytesWritten, File, Splice, RoundsLogged, LoggedWrite, Held, NBlocks,
         Rounds, WroteFile, Owned, OpenAt, SameSlots;
    var s2, n := Resize(s1, ip, off + |src|), Held(NBlocks(s0.inodes[ip].size), off, |src|);
    GrownBlocks(s0.inodes[ip].size, off, |src|);
    LoopedOthers(s0, s1, own, ip, off, src, l0, l1);
    ResizeOpen(s1, own, ip, n, off + |src|);
    IsOpen(s2, own, ip, n);
    WriteDone(s0, s1, s2, ip, off, src);
    DinodesOnly(s2, s, own, ip, n);
    DinodesFile(s0, s2, s, ip, off, src);
    OpenSettled(s, own, ip, n);
    SameSlotsTrans(s1, s2, s, ip);
    EndLogged(s0, s1, s, ip, off, |src|, l0, l1, l);
  }

  lemma LoopedOthers(s0: FS, s: FS, own: Owners, ip: nat, off: nat, src: seq<int>, l0: set<nat>, l: set<nat>)
    requires WriteLooped(s0, s, own, ip, off, src, l0, l)
    ensures Shaped(s) && |s.inodes| == |s0.inodes| && forall f :: 0 <= f < |s.inodes| && f != ip ==>
      s.inodes[f] == s0.inodes[f]
  {
    hide Slot, Mapped, Settled, BytesWritten, RoundsLogged;
  }

  lemma SameSlotsTrans(s: FS, t: FS, u: FS, ip: nat)
    requires SameSlots(s, t, ip) && SameSlots(t, u, ip)
    ensures SameSlots(s, u, ip)
  {
    hide Slot, Shaped;
  }

  lemma GrownBlocks(size: nat, off: nat, n: nat)
    requires off <= size < off + n
    ensures Held(NBlocks(size), off, n) == NBlocks(off + n)
  {
  }

  lemma IsOpen(s: FS, own: Owners, ip: nat, n: nat)
    requires OpenAt(s, own, ip, n)
    ensures Shaped(s) && ip < |s.inodes| == |s.dinodes|
  {
  }

  lemma EndSame(s0: FS, s: FS, own: Owners, ip: nat, off: nat, src: seq<int>, l0: set<nat>, l: set<nat>)
    requires WriteLooped(s0, s, own, ip, off, src, l0, l) && off + |src| <= s0.inodes[ip].size <= MAXBYTES
    requires forall f :: 0 <= f < |s0.inodes| ==> s0.inodes[f].size <= MAXBYTES
    requires |s0.dinodes| == |s0.inodes| && s0.dinodes[ip] == s0.inodes[ip]
    ensures AllSettled(s, own) && WroteFile(s0, s, ip, off, src) && LoggedWrite(s0, s, ip, off, |src|, l0, l)
  {
    NoGrowth(s0.inodes[ip].size, off, |src|);
    hide Slot, Mapped, Settled, BytesWritten, File, Splice, RoundsLogged, LoggedWrite, Held, NBlocks, Rounds,
         WroteFile, Owned;
    IsOpen(s, own, ip, Held(NBlocks(s0.inodes[ip].size), off, |src|));
    WriteDone(s0, s, s, ip, off, src);
    OpenSettled(s, own, ip, Held(NBlocks(s0.inodes[ip].size), off, |src|));
    EndLogged(s0, s, s, ip, off, |src|, l0, l, l);
  }

  // ----- readi, itrunc and filewrite, on values -----

  /** A run of bytes inside one block of a file. */
  lemma BlockRun(s: FS, own: Owners, ip: nat, n: nat, o: nat, run: seq<int>)
    requires OpenAt(s, own, ip, n) && o / BSIZE < n && o + |run| <= MAXBYTES && o % BSIZE + |run| <= BSIZE
    requires o < MAXBYTES
    requires 0 < Slot(s, ip, o / BSIZE) < s.sb.size
    requires run == s.blocks[Slot(s, ip, o / BSIZE)][o % BSIZE..o % BSIZE + |run|]
    ensures forall i :: 0 <= i < |run| ==> run[i] == Byte(s, ip, o + i)
  {
    forall i | 0 <= i < |run| ensures run[i] == Byte(s, ip, o + i) {
      SameBlock(o, i);
    }
  }
  lemma SameBlock(o: nat, i: nat)
    requires o % BSIZE + i < BSIZE
    ensures (o + i) / BSIZE == o / BSIZE && (o + i) % BSIZE == o % BSIZE + i
  {
  }

  /** run is what file ip holds from offset off. */
  ghost predicate RunOf(s: FS, ip: nat, off: nat, run: seq<int>) {
    && Shaped(s) && ip < |s.inodes| && off + |run| <= MAXBYTES
    && forall i :: 0 <= i < |run| ==> run[i] == Byte(s, ip, off + i)
  }
  lemma RunStart(s: FS, ip: nat, off: nat)
    requires Shaped(s) && ip < |s.inodes| && off <= MAXBYTES
    ensures RunOf(s, ip, off, [])
  {
  }
  lemma RunIsFile(s: FS, ip: nat, off: nat, run: seq<int>)
    requires RunOf(s, ip, off, run) && off + |run| <= s.inodes[ip].size <= MAXBYTES
    ensures run == File(s, ip)[off..off + |run|]
  {
  }
  lemma IsShaped(s: FS, own: Owners, ip: nat)
    requires Owned(s, own) && ip < |s.inodes|
    ensures Shaped(s) && |s.dinodes| == |s.inodes| && Slot(s, ip, MAXFILE) == s.inodes[ip].addrs[NDIRECT]
  {
  }
  lemma ValidOpen(s: FS, own: Owners, ip: nat)
    requires AllSettled(s, own) && ip < |s.inodes|
    ensures OpenAt(s, own, ip, NBlocks(s.inodes[ip].size)) && s.inodes[ip].size <= MAXBYTES && Shaped(s)
  {
    hide Slot;
    assert Settled(s, ip);
  }

  lemma RunAppend(s: FS, ip: nat, off: nat, xs: seq<int>, ys: seq<int>)
    requires RunOf(s, ip, off, xs) && RunOf(s, ip, off + |xs|, ys)
    ensures RunOf(s, ip, off, xs + ys)
  {
    forall i | 0 <= i < |xs + ys| ensures (xs + ys)[i] == Byte(s, ip, off + i) {
      if i >= |xs| { assert ys[i - |xs|] == Byte(s, ip, off + |xs| + (i - |xs|)); }
    }
  }

  /** Blocks of inode ip in slots below k. */
  predicate OwnedBelow(own: Owners, ip: nat, k: int, b: int) {
    b >= 0 && b in own && own[b].inum == ip && own[b].slot < k
  }

  /** itrunc half way: the bits of the inode's blocks in slots below k are cleared, every
      other bit is as in s. */
  ghost predicate Cleared(s: FS, own: Owners, ip: nat, k: int, used: seq<bool>) {
    && |used| == |s.used|
    && forall b :: 0 <= b < |used| ==> used[b] == (s.used[b] && !OwnedBelow(own, ip, k, b))
  }

  /** The first k addresses of inode ip are zeroed; besides the bitmap nothing else differs. */
  ghost predicate DirectGone(s0: FS, s: FS, ip: nat, k: int) {
    && ip < |s0.inodes| && ip < |s.inodes| && |s0.inodes[ip].addrs| == NDIRECT + 1
    && |s.inodes[ip].addrs| == NDIRECT + 1
    && (forall j :: 0 <= j <= NDIRECT ==> s.inodes[ip].addrs[j] == if j < k then 0 else s0.inodes[ip].addrs[j])
    && s == s0.(used := s.used, inodes := s0.inodes[ip := s.inodes[ip]])
    && s.inodes[ip].size == s0.inodes[ip].size
  }

  /** The block of slot k is still marked when itrunc comes to free it. */
  lemma ClearStep(s: FS, own: Owners, ip: nat, k: nat, used: seq<bool>)
    requires Owned(s, own) && ip < |s.inodes| && k <= MAXFILE && Cleared(s, own, ip, k, used)
    ensures var b := Slot(s, ip, k);
      && (b == 0 ==> Cleared(s, own, ip, k + 1, used))
      && (b != 0 ==> 0 < b < |used| && used[b] && Cleared(s, own, ip, k + 1, used[b := false]))
  {
  }

  /** The volume after itrunc and its iupdate. */
  function Truncated(s: FS, ip: nat, used: seq<bool>): (t: FS)
    requires ip < |s.inodes| && ip < |s.dinodes|
  {
    var e := Ino(0, seq(NDIRECT + 1, i => 0));
    s.(used := used, inodes := s.inodes[ip := e], dinodes := s.dinodes[ip := e])
  }

  function Others(own: Owners, ip: nat): (r: Owners) {
    map b | b in own && own[b].inum != ip :: own[b]
  }

  lemma TruncatedSlots(s: FS, own: Owners, ip: nat, used: seq<bool>, f: nat, k: nat)
    requires Owned(s, own) && ip < |s.inodes| && Cleared(s, own, ip, MAXFILE + 1, used) && f < |s.inodes|
    requires k <= MAXFILE
    ensures Shaped(Truncated(s, ip, used))
    ensures Slot(Truncated(s, ip, used), f, k) == if f == ip then 0 else Slot(s, f, k)
  {
  }

  /** What stays owned after itrunc is what the other inodes own. */
  lemma TruncatedOwned(s: FS, own: Owners, ip: nat, used: seq<bool>)
    requires Owned(s, own) && ip < |s.inodes| && Cleared(s, own, ip, MAXFILE + 1, used)
    ensures var t := Truncated(s, ip, used);
      && Owned(t, Others(own, ip))
      && forall f, k :: 0 <= f < |s.inodes| && 0 <= k <= MAXFILE ==>
           Slot(t, f, k) == if f == ip then 0 else Slot(s, f, k)
  {
    var t := Truncated(s, ip, used);
    forall f, k | 0 <= f < |s.inodes| && 0 <= k <= MAXFILE
      ensures Shaped(t) && Slot(t, f, k) == if f == ip then 0 else Slot(s, f, k)
    {
      TruncatedSlots(s, own, ip, used, f, k);
    }
    TruncatedSlots(s, own, ip, used, ip, 0);
  }

  lemma TruncatedFile(s: FS, own: Owners, ip: nat, used: seq<bool>, f: nat)
    requires Owned(s, own) && ip < |s.inodes| && Cleared(s, own, ip, MAXFILE + 1, used) && f < |s.inodes|
    requires Settled(s, f)
    ensures var t := Truncated(s, ip, used);
      && Shaped(t) && Settled(t, f) && t.inodes[f].size <= MAXBYTES
      && File(t, f) == if f == ip then [] else File(s, f)
  {
    TruncatedOwned(s, own, ip, used);
    hide Slot, Cleared, Others;
    var t := Truncated(s, ip, used);
    if f != ip {
      assert s.inodes[f] == t.inodes[f];
      forall i: nat | i < MAXBYTES ensures Byte(t, f, i) == Byte(s, f, i) {
        TruncatedSlots(s, own, ip, used, f, i / BSIZE);
      }
    }
  }

  lemma TruncatedOk(s: FS, own: Owners, ip: nat, used: seq<bool>)
    requires Owned(s, own) && ip < |s.inodes| && Cleared(s, own, ip, MAXFILE + 1, used)
    requires forall f :: 0 <= f < |s.inodes| ==> Settled(s, f) && s.dinodes[f] == s.inodes[f]
    ensures var t := Truncated(s, ip, used);
      && Owned(t, Others(own, ip))
      && (forall f :: 0 <= f < |t.inodes| ==> Settled(t, f) && t.dinodes[f] == t.inodes[f])
      && (forall f :: 0 <= f < |t.inodes| ==> File(t, f) == if f == ip then [] else File(s, f))
  {
    hide Cleared;
    TruncatedOwned(s, own, ip, used);
    var t := Truncated(s, ip, used);
    forall f | 0 <= f < |t.inodes|
      ensures Settled(t, f) && t.dinodes[f] == t.inodes[f] && File(t, f) == if f == ip then [] else File(s, f)
    {
      TruncatedFile(s, own, ip, used, f);
    }
  }

  /** An inode without an indirect block has no blocks beyond the direct ones. */
  lemma NoIndirect(s: FS, own: Owners, ip: nat, used: seq<bool>)
    requires Owned(s, own) && ip < |s.inodes| && s.inodes[ip].addrs[NDIRECT] == 0 && Cleared(s, own, ip, NDIRECT, used)
    ensures Cleared(s, own, ip, MAXFILE + 1, used)
  {
    forall b | b in own && own[b].inum == ip ensures own[b].slot < NDIRECT {
      assert Slot(s, ip, own[b].slot) == b;
    }
  }

  lemma WroteNothing(s: FS, own: Owners, ip: nat, off: nat)
    requires AllSettled(s, own) && ip < |s.inodes|
    ensures off <= s.inodes[ip].size ==> WroteFile(s, s, ip, off, [])
  {
    hide Slot, Byte, Mapped, Shaped;
    forall f | 0 <= f < |s.inodes| ensures s.inodes[f].size <= MAXBYTES { assert Settled(s, f); }
    if off <= s.inodes[ip].size { assert Splice(File(s, ip), off, []) == File(s, ip); }
  }

  /** A file is at least as long as what was written to it, and no longer than MAXBYTES. */
  lemma WroteSize(s0: FS, s: FS, ip: nat, off: nat, xs: seq<int>)
    requires WroteFile(s0, s, ip, off, xs)
    ensures ip < |s.inodes| && off + |xs| <= s.inodes[ip].size <= MAXBYTES
  {
    assert |File(s, ip)| == |Splice(File(s0, ip), off, xs)|;
  }

  /** filewrite half way: xs is written at off, unless off lies beyond the file. */
  ghost predicate Chunked(s0: FS, s: FS, ip: nat, off: nat, xs: seq<int>) {
    && ip < |s0.inodes| && ip < |s.inodes|
    && if off > s0.inodes[ip].size then xs == [] && s == s0 else off + |xs| <= MAXBYTES && WroteFile(s0, s, ip, off, xs)
  }

  /** filewrite gives up at off1: it wrote whole chunks, and the next one would pass the
      largest file size. */
  predicate StopsAt(off: nat, n: nat, off1: nat) {
    && off <= off1 < off + n && (off1 - off) % CHUNK == 0 && off1 <= MAXBYTES
    && MAXBYTES < if off1 + CHUNK < off + n then off1 + CHUNK else off + n
  }

  lemma SpliceTwice(c: seq<int>, off: nat, xs: seq<int>, ys: seq<int>)
    requires off <= |c|
    ensures off + |xs| <= |Splice(c, off, xs)|
    ensures Splice(Splice(c, off, xs), off + |xs|, ys) == Splice(c, off, xs + ys)
  {
  }

  lemma WroteTwice(s: FS, t: FS, u: FS, ip: nat, off: nat, xs: seq<int>, ys: seq<int>)
    requires WroteFile(s, t, ip, off, xs) && WroteFile(t, u, ip, off + |xs|, ys)
    ensures WroteFile(s, u, ip, off, xs + ys)
  {
    SpliceTwice(File(s, ip), off, xs, ys);
  }

  class Volume {
    var s: FS
    ghost var own: Owners
    ghost var logged: set<nat>          // blocks logged since begin_op

    ghost predicate Valid()
      reads this
    {
      AllSettled(s, own)
    }

    /** A volume in a given state, with no transaction begun. */
    constructor (s: FS, ghost own: Owners)
      requires AllSettled(s, own)
      ensures Valid() && this.s == s && this.own == own && logged == {}
    {
      this.s, this.own, logged := s, own, {};
    }

    /** balloc: the lowest free block, marked and zeroed; false is the panic. */
    method BAlloc() returns (ok: bool, b: nat)
      requires Shaped(s)
      modifies this`s, this`logged
      ensures ok ==>
        && b < old(s).sb.size && !old(s).used[b] && (forall c :: 0 <= c < b ==> old(s).used[c])
        && s == Alloc(old(s), b) && s.used == old(s).used[b := true]
        && b < |s.blocks| && |s.blocks[b]| == BSIZE && (forall i :: 0 <= i < BSIZE ==> s.blocks[b][i] == 0)
        && logged == old(logged) + {s.sb.bmapstart + b / 4096, b}
      ensures !ok ==> s == old(s) && logged == old(logged) && forall c :: 0 <= c < s.sb.size ==> s.used[c]
    {
      var base := 0;
      while base < s.sb.size
        invariant s == old(s) && logged == old(logged)
        invariant base % BPB == 0 && forall c :: 0 <= c < base && c < s.sb.size ==> s.used[c]
      {
        var bi := 0;
        while bi < BPB && base + bi < s.sb.size
          invariant s == old(s) && logged == old(logged)
          invariant 0 <= bi <= BPB && forall c :: 0 <= c < base + bi && c < s.sb.size ==> s.used[c]
        {
          if !s.used[base + bi] {
            s := s.(used := s.used[base + bi := true]);
            logged := logged + {BBlock(s.sb, base + bi)};
            s := s.(blocks := s.blocks[base + bi := Zero()]);          // bzero
            logged := logged + {base + bi};
            return true, base + bi;
          }
          bi := bi + 1;
        }
        base := base + BPB;
      }
      return false, 0;
    }

    /** Allocate a block for slot k of inode ip, as bmap does in three places. */
    method GrowSlot(ip: nat, k: nat) returns (ok: bool, b: nat)
      requires Owned(s, own) && ip < |s.inodes| && k <= MAXFILE && Slot(s, ip, k) == 0
      requires NDIRECT <= k < MAXFILE ==> s.inodes[ip].addrs[NDIRECT] != 0
      modifies this
      ensures ok ==> Grew(old(s), old(own), s, own, ip, k, b)
      ensures ok ==> GrowLogged(old(s), ip, k, b, old(logged), logged)
      ensures ok <==> |FreeBlocks(old(s))| >= 1
      ensures !ok ==> AllUsed(s)
    {
      ghost var s0 := s;
      ok, b := BAlloc();
      if !ok {
        assert FreeBlocks(s0) == {};
        return;
      }
      assert b in FreeBlocks(s0);
      GrowGrew(s0, own, ip, k, b);
      s := Attach(s, ip, k, b);
      own := own[b := Owner(ip, k)];
      if NDIRECT <= k < MAXFILE {
        logged := logged + {s.inodes[ip].addrs[NDIRECT]};        // log_write of the indirect block
      }
    }

    /** bmap: the block in data slot bn of inode ip, which holds n blocks.  A slot below n is
        just read; slot n gets a new block, and first an indirect block if it needs one. */
    method BMap(ip: nat, bn: nat, ghost n: nat) returns (ok: bool, addr: nat)
      requires OpenAt(s, own, ip, n) && bn <= n && bn < MAXFILE
      modifies this
      ensures ok ==> Mapping(old(s), s, own, ip, bn, addr, Grown(n, bn == n))
      ensures ok ==> Extended(old(s), s, ip, n, Grown(n, bn == n))
      ensures bn < n ==> ok && s == old(s) && own == old(own) && logged == old(logged)
      ensures ok && bn == n ==> MappedNew(s, ip, bn, addr, old(logged), logged)
      ensures ok <==> |FreeBlocks(old(s))| >= Needed(n, Grown(n, bn == n))
      ensures !ok ==> AllUsed(s)
    {
      if bn < NDIRECT {
        ok, addr := BMapDirect(ip, bn, n);
      } else {
        ok, addr := BMapIndirect(ip, bn, n);
      }
    }

    method BMapDirect(ip: nat, bn: nat, ghost n: nat) returns (ok: bool, addr: nat)
      requires OpenAt(s, own, ip, n) && bn <= n && bn < NDIRECT
      modifies this
      ensures ok ==> Mapping(old(s), s, own, ip, bn, addr, Grown(n, bn == n))
      ensures ok ==> Extended(old(s), s, ip, n, Grown(n, bn == n))
      ensures bn < n ==> ok && s == old(s) && own == old(own) && logged == old(logged)
      ensures ok && bn == n ==> MappedNew(s, ip, bn, addr, old(logged), logged)
      ensures ok <==> |FreeBlocks(old(s))| >= Needed(n, Grown(n, bn == n))
      ensures !ok ==> AllUsed(s)
    {
      ghost var s0, own0 := s, own;
      assert Slot(s, ip, bn) != 0 <==> bn < n;
      addr := s.inodes[ip].addrs[bn];
      if addr == 0 {
        ok, addr := GrowSlot(ip, bn);
        if !ok { return; }
        GrewMapped(s0, own0, s, own, ip, n, addr);
        KeepOthers(s0, own0, ip, bn, addr);
        GrewExtended(s0, own0, s, own, ip, n, addr);
      } else {
        ExtendedNone(s0, ip, n);
      }
      return true, addr;
    }

    method BMapIndirect(ip: nat, bn: nat, ghost n: nat) returns (ok: bool, addr: nat)
      requires OpenAt(s, own, ip, n) && bn <= n && NDIRECT <= bn < MAXFILE
      modifies this
      ensures ok ==> Mapping(old(s), s, own, ip, bn, addr, Grown(n, bn == n))
      ensures ok ==> Extended(old(s), s, ip, n, Grown(n, bn == n))
      ensures bn < n ==> ok && s == old(s) && own == old(own) && logged == old(logged)
      ensures ok && bn == n ==> MappedNew(s, ip, bn, addr, old(logged), logged)
      ensures ok <==> |FreeBlocks(old(s))| >= Needed(n, Grown(n, bn == n))
      ensures !ok ==> AllUsed(s)
    {
      hide OpenAt, HasIndirect, Grew, Slot, Extended, FreeBlocks, AllUsed, BytesWritten, Shaped;
      ghost var s0, own0, l0 := s, own, logged;
      IsOpen(s, own, ip, n);
      var ind;
      ok, ind := IndirectBlock(ip, n);
      if !ok { return ok, ind; }
      ghost var s1, own1, l1 := s, own, logged;
      WithShape(s0, s1, own1, ip, n, ind);
      ok, addr := EntryBlock(ip, bn, ind, n);
      if !ok { return; }
      GrewTrans(s0, s1, s, ip);
      if bn < n {
        ExtendedNone(s0, ip, n);
      } else if n == NDIRECT {
        GrewTwice(s0, own0, s1, own1, s, own, ip, ind, addr);
      } else {
        GrewExtended(s0, own0, s, own, ip, n, addr);
      }
    }

    /** The indirect block, allocated if the inode has none. */
    method IndirectBlock(ip: nat, ghost n: nat) returns (ok: bool, ind: nat)
      requires OpenAt(s, own, ip, n) && n >= NDIRECT
      modifies this
      ensures ok ==> WithIndirect(old(s), s, own, ip, n, ind)
      ensures ok && n == NDIRECT ==>
        logged == old(logged) + {BBlock(s.sb, ind), ind} && Grew(old(s), old(own), s, own, ip, MAXFILE, ind)
      ensures n == NDIRECT ==>
        (ok <==> |FreeBlocks(old(s))| >= 1) && (ok ==> |FreeBlocks(s)| == |FreeBlocks(old(s))| - 1)
      ensures n > NDIRECT ==> ok && s == old(s) && own == old(own) && logged == old(logged)
      ensures !ok ==> AllUsed(s)
    {
      ghost var s0, own0 := s, own;
      ind := s.inodes[ip].addrs[NDIRECT];
      assert ind == Slot(s, ip, MAXFILE);
      if ind == 0 {
        ok, ind := GrowSlot(ip, MAXFILE);
        if !ok { return; }
        assert Slot(s, ip, MAXFILE) == ind;
        KeepOthers(s0, own0, ip, MAXFILE, ind);
        GrewFree(s0, own0, s, own, ip, MAXFILE, ind);
      }
      return true, ind;
    }

    /** The entry for data block bn in the indirect block, allocated if it is empty. */
    method EntryBlock(ip: nat, bn: nat, ind: nat, ghost n: nat) returns (ok: bool, addr: nat)
      requires HasIndirect(s, own, ip, n) && bn <= n && NDIRECT <= bn < MAXFILE && ind == Slot(s, ip, MAXFILE)
      modifies this
      ensures ok ==> Mapping(old(s), s, own, ip, bn, addr, Grown(n, bn == n)) && IndirectIs(s, ip, ind)
      ensures bn < n ==> ok && s == old(s) && own == old(own) && logged == old(logged)
      ensures ok && bn == n ==>
        logged == old(logged) + {BBlock(s.sb, addr), addr} + {ind} && Grew(old(s), old(own), s, own, ip, n, addr)
      ensures ok <==> bn < n || |FreeBlocks(old(s))| >= 1
      ensures !ok ==> AllUsed(s)
    {
      hide FreeBlocks, AllUsed, Settled;
      ghost var s0, own0 := s, own;
      assert Slot(s, ip, bn) != 0 <==> bn < n;
      addr := Word(s.blocks[ind], bn - NDIRECT);
      assert addr == Slot(s, ip, bn);
      if addr == 0 {
        ok, addr := GrowSlot(ip, bn);
        if !ok { return; }
        GrewMapped(s0, own0, s, own, ip, n, addr);
        KeepOthers(s0, own0, ip, bn, addr);
      }
      return true, addr;
    }

    ghost method KeepOthers(s0: FS, own0: Owners, ip: nat, k: nat, b: nat)
      requires Grew(s0, own0, s, own, ip, k, b)
      requires forall f :: 0 <= f < |s0.inodes| && f != ip ==> Settled(s0, f) && s0.dinodes[f] == s0.inodes[f]
      ensures forall f :: 0 <= f < |s.inodes| && f != ip ==> Settled(s, f) && s.dinodes[f] == s.inodes[f]
    {
      forall f | 0 <= f < |s.inodes| && f != ip ensures Settled(s, f) && s.dinodes[f] == s.inodes[f] {
        GrewSettled(s0, own0, s, own, ip, k, b, f);
      }
    }

    /** One round of writei's loop: piece goes to offset off, within one block. */
    method PutPiece(ip: nat, off: nat, piece: seq<int>, ghost n: nat) returns (ok: bool)
      requires OpenAt(s, own, ip, n) && off / BSIZE <= n && off < MAXBYTES && off % BSIZE + |piece| <= BSIZE
      modifies this
      ensures ok ==> OpenAt(s, own, ip, Grown(n, off / BSIZE == n))
      ensures ok ==> RoundDone(old(s), s, ip, off, piece, n, off / BSIZE == n, old(logged), logged)
      ensures ok <==> |FreeBlocks(old(s))| >= Needed(n, Grown(n, off / BSIZE == n))
      ensures !ok ==> AllUsed(s)
    {
      hide OpenAt, BytesWritten, Mapping, RoundDone, MappedNew, Extended, FreeBlocks, AllUsed, Stored, SameSlots;
      ghost var s0, l0, grow := s, logged, off / BSIZE == n;
      var addr;
      ok, addr := BMap(ip, off / BSIZE, n);
      if !ok { return; }
      ghost var s1, l1, own1 := s, logged, own;
      MappingFacts(s0, s1, own, ip, off / BSIZE, addr, Grown(n, grow));
      StorePiece(ip, off, addr, piece, Grown(n, grow));
      RoundIs(s0, s1, s, own1, ip, off, piece, n, grow, addr, l0, l1, logged);
    }

    /** The memmove and log_write of writei. */
    method StorePiece(ip: nat, off: nat, addr: nat, piece: seq<int>, ghost n: nat)
      requires OpenAt(s, own, ip, n) && off < MAXBYTES && off % BSIZE + |piece| <= BSIZE
      requires 0 < addr < s.sb.size && addr == Slot(s, ip, off / BSIZE)
      modifies this`s, this`logged
      ensures OpenAt(s, own, ip, n) && Stored(old(s), s, ip, off, piece) && s.inodes == old(s).inodes
      ensures SameSlots(old(s), s, ip) && logged == old(logged) + {addr}
    {
      PutStep(s, own, ip, off, piece, n);
      s := s.(blocks := s.blocks[addr := Patch(s.blocks[addr], off % BSIZE, piece)]);
      logged := logged + {addr};
    }

    /** iupdate: the disk copy gets the in-memory inode. */
    method IUpdate(ip: nat)
      requires ip < |s.inodes| && ip < |s.dinodes|
      modifies this`s, this`logged
      ensures s == old(s).(dinodes := old(s).dinodes[ip := old(s).inodes[ip]])
      ensures logged == old(logged) + {IBlock(s.sb, ip)} && IBlock(s.sb, ip) == s.sb.inodestart + ip / 8
    {
      s := s.(dinodes := s.dinodes[ip := s.inodes[ip]]);
      logged := logged + {IBlock(s.sb, ip)};
    }

    /** A round of writei's loop, with xs written so far; ys is what it writes. */
    method WriteRound(ip: nat, off: nat, o: nat, ys: seq<int>, ghost xs: seq<int>, ghost n0: nat, ghost n: nat,
            ghost rounds: nat,
                      ghost s0: FS, ghost l0: set<nat>) returns (ok: bool)
      requires OpenAt(s, own, ip, n) && Progress(s0, s, ip, off, xs, n0, n, rounds, l0, logged)
      requires o == off + |xs| && o / BSIZE == off / BSIZE + rounds <= n && o < MAXBYTES && o % BSIZE + |ys| <= BSIZE
      modifies this
      ensures ok ==> OpenAt(s, own, ip, Grown(n, o / BSIZE == n))
      ensures ok ==> Progress(s0, s, ip, off, xs + ys, n0, Grown(n, o / BSIZE == n), rounds + 1, l0, logged)
      ensures ok <==> |FreeBlocks(s0)| >= Needed(n0, Grown(n, o / BSIZE == n))
      ensures !ok ==> AllUsed(s)
    {
      hide OpenAt, Progress, RoundDone, AllUsed, FreeBlocks;
      ghost var s1, l1 := s, logged;
      ProgressFree(s0, s, ip, off, xs, n0, n, rounds, l0, logged);
      ok := PutPiece(ip, o, ys, n);
      if ok {
        ProgressStep(s0, s1, s, ip, off, xs, ys, n0, n, rounds, o / BSIZE == n, l0, l1, logged);
      }
    }

    /** The loop of writei. */
    method WriteLoop(ip: nat, src: seq<int>, off: nat, ghost size: nat, ghost n0: nat) returns (ok: bool)
      requires off <= size && off + |src| <= MAXBYTES && n0 == NBlocks(size)
      requires OpenAt(s, own, ip, n0) && Progress(s, s, ip, off, [], n0, n0, 0, logged, logged)
      modifies this
      ensures ok ==> OpenAt(s, own, ip, Held(n0, off, |src|))
      ensures ok ==>
        Progress(old(s), s, ip, off, src, n0, Held(n0, off, |src|), Rounds(off, |src|), old(logged), logged)
      ensures ok <==> |FreeBlocks(old(s))| >= Needed(n0, Held(n0, off, |src|))
      ensures !ok ==> AllUsed(s)
    {
      hide OpenAt, Progress, PieceLen, NBlocks, Grown, AllUsed, FreeBlocks, Held;
      ghost var s0, l0 := s, logged;
      ghost var n: nat, rounds: nat := n0, 0;
      var tot := 0;
      HeldGrows(n0, off, 0, 0);
      assert src[..0] == [];
      while tot < |src|
        invariant 0 <= tot <= |src| && (0 < tot < |src| ==> (off + tot) % BSIZE == 0)
        invariant n == Held(n0, off, tot) && rounds == Rounds(off, tot)
        invariant OpenAt(s, own, ip, n) && Progress(s0, s, ip, off, src[..tot], n0, n, rounds, l0, logged)
      {
        var o := off + tot;
        var m := PieceLen(o, |src| - tot);
        RoundArith(size, off, tot, m);
        SliceStep(src, tot, m);
        HeldGrows(n0, off, tot + m, |src|);
        ok := WriteRound(ip, off, o, src[tot..tot + m], src[..tot], n0, n, rounds, s0, l0);
        if !ok { return; }
        n, rounds := Grown(n, o / BSIZE == n), rounds + 1;
        tot := tot + m;
      }
      assert src[..tot] == src;
      ProgressFree(s0, s, ip, off, src, n0, n, rounds, l0, logged);
      return true;
    }

    /** The end of writei: the size, and iupdate if it changed. */
    method WriteEnd(ip: nat, end: nat, off: nat, ghost s0: FS, ghost own0: Owners, ghost src: seq<int>,
            ghost l0: set<nat>)
      requires WriteLooped(s0, s, own, ip, off, src, l0, logged) && end == off + |src| <= MAXBYTES
      requires ip < |s0.inodes| && ip < |s.inodes| && ip < |s.dinodes| && s.inodes[ip].size == s0.inodes[ip].size
      requires AllSettled(s0, own0)
      requires off <= s0.inodes[ip].size
      modifies this`s, this`logged
      ensures Valid() && WroteFile(s0, s, ip, off, src) && LoggedWrite(s0, s, ip, off, |src|, l0, logged)
    {
      hide WriteLooped, WroteFile, LoggedWrite, Owned, Settled;
      ghost var s1, l1 := s, logged;
      SettledFacts(s0, own0);
      if end > off && end > s.inodes[ip].size {
        s := s.(inodes := s.inodes[ip := s.inodes[ip].(size := end)]);
        IUpdate(ip);
        EndGrown(s0, s1, s, own, ip, off, src, l0, l1, logged);
      } else {
        EndSame(s0, s, own, ip, off, src, l0, logged);
      }
    }

    /** writei.  r is -1 with nothing changed, or the whole of src is in the file, every other
        file is untouched, every inode is on disk again although iupdate runs only when the
        file grew, and LoggedWrite says exactly which blocks were logged.  ok is false, at
        balloc's panic, exactly if the volume has too few free blocks. */
    method WriteI(ip: nat, src: seq<int>, off: nat) returns (ok: bool, r: int)
      requires Valid() && ip < |s.inodes| && off < UINT && |src| < UINT
      modifies this
      ensures off > old(s).inodes[ip].size || off + |src| > MAXBYTES ==>
        ok && r == -1 && s == old(s) && own == old(own) && logged == old(logged)
      ensures ok && off <= old(s).inodes[ip].size && off + |src| <= MAXBYTES ==>
        && r == |src| && Valid() && WroteFile(old(s), s, ip, off, src)
        && Overwritten(File(old(s), ip), File(s, ip), off, src)
        && LoggedWrite(old(s), s, ip, off, |src|, old(logged), logged)
        && |logged| <= |old(logged)| + WriteCost(old(s).inodes[ip].size, off, |src|)
      ensures off <= old(s).inodes[ip].size && off + |src| <= MAXBYTES ==>
        (ok <==> |FreeBlocks(old(s))| >= WriteNeeds(old(s).inodes[ip].size, off, |src|))
      ensures !ok ==> AllUsed(s)
    {
      hide OpenAt, Progress, WroteFile, LoggedWrite, Owned, Settled, WriteCost, AllUsed, FreeBlocks, Held, NBlocks;
      var n := |src|;
      NoWrap(off, n);
      if off > s.inodes[ip].size || (off + n) % UINT < off { return true, -1; }
      if (off + n) % UINT > MAXBYTES { return true, -1; }
      ghost var s0, l0, own0 := s, logged, own;
      ghost var size := s.inodes[ip].size;
      ValidOpen(s, own, ip);
      SizeBlocks(size);
      ProgressStart(s, ip, off, NBlocks(size), logged);
      ok := WriteLoop(ip, src, off, size, NBlocks(size));
      if !ok { return false, 0; }
      LoopedSize(s0, s, own, ip, off, src, l0, logged);
      WriteEnd(ip, off + n, off, s0, own0, src, l0);
      LoggedCard(s0, s, ip, off, n, l0, logged);
      WroteBytes(s0, s, ip, off, src);
      return true, n;
    }

    /** One round of readi's loop: m bytes at offset o, within one block that exists. */
    method ReadPiece(ip: nat, o: nat, m: nat, ghost n: nat) returns (run: seq<int>)
      requires OpenAt(s, own, ip, n) && o / BSIZE < n && o % BSIZE + m <= BSIZE && o + m <= MAXBYTES && o < MAXBYTES
      modifies this
      ensures s == old(s) && own == old(own) && logged == old(logged)
      ensures |run| == m && RunOf(s, ip, o, run)
    {
      var ok, addr := BMap(ip, o / BSIZE, n);
      run := s.blocks[addr][o % BSIZE..o % BSIZE + m];
      BlockRun(s, own, ip, n, o, run);
    }

    /** The loop of readi. */
    method ReadLoop(ip: nat, off: nat, n: nat, ghost size: nat, ghost nb: nat) returns (dst: seq<int>)
      requires OpenAt(s, own, ip, nb) && nb == NBlocks(size) && off + n <= size <= MAXBYTES && RunOf(s, ip, off, [])
      modifies this
      ensures s == old(s) && own == old(own) && logged == old(logged)
      ensures |dst| == n && RunOf(s, ip, off, dst)
    {
      hide OpenAt, RunOf, PieceLen;
      dst := [];
      var tot := 0;
      while tot < n
        invariant 0 <= tot <= n && |dst| == tot
        invariant s == old(s) && own == old(own) && logged == old(logged)
        invariant RunOf(s, ip, off, dst)
      {
        var o := off + tot;
        assert o / BSIZE < nb;
        var m := PieceLen(o, n - tot);
        var run := ReadPiece(ip, o, m, nb);
        RunAppend(s, ip, off, dst, run);
        dst := dst + run;
        tot := tot + m;
      }
    }

    /** readi.  -1, or the requested bytes as far as the file goes.  Every block it asks bmap
        for exists, so nothing is allocated, logged or changed. */
    method ReadI(ip: nat, off: nat, n: nat) returns (r: int, dst: seq<int>)
      requires Valid() && ip < |s.inodes| && off < UINT && n < UINT
      modifies this
      ensures s == old(s) && own == old(own) && logged == old(logged)
      ensures s.inodes[ip].size <= MAXBYTES && Shaped(s)
      ensures r == -1 <==> off > s.inodes[ip].size || off + n >= UINT
      ensures r == -1 ==> dst == []
      ensures r != -1 ==>
        r == |dst| == (if off + n <= s.inodes[ip].size then n else s.inodes[ip].size - off)
        && dst == File(s, ip)[off..off + r]
    {
      ValidOpen(s, own, ip);
      hide OpenAt, RunOf, Owned, Settled;
      var size := s.inodes[ip].size;
      NoWrap(off, n);
      if off > size || (off + n) % UINT < off { return -1, []; }
      var n1 := if (off + n) % UINT > size then size - off else n;
      RunStart(s, ip, off);
      dst := ReadLoop(ip, off, n1, size, NBlocks(size));
      RunIsFile(s, ip, off, dst);
      return n1, dst;
    }

    /** bfree; false is the panic "freeing free block". */
    method BFree(b: nat) returns (ok: bool)
      requires b < |s.used|
      modifies this`s, this`logged
      ensures ok == old(s).used[b]
      ensures s == if ok then old(s).(used := old(s).used[b := false]) else old(s)
      ensures logged == if ok then old(logged) + {BBlock(s.sb, b)} else old(logged)
    {
      if !s.used[b] { return false; }
      s := s.(used := s.used[b := false]);
      logged := logged + {BBlock(s.sb, b)};
      return true;
    }

    /** The first loop of itrunc. */
    method TruncDirect(ip: nat)
      requires Owned(s, own) && ip < |s.inodes|
      modifies this`s, this`logged
      ensures Cleared(old(s), own, ip, NDIRECT, s.used) && DirectGone(old(s), s, ip, NDIRECT)
    {
      ghost var s0 := s;
      for i := 0 to NDIRECT
        invariant Cleared(s0, own, ip, i, s.used) && DirectGone(s0, s, ip, i)
      {
        ClearStep(s0, own, ip, i, s.used);
        var b := s.inodes[ip].addrs[i];
        if b != 0 {
          var ok := BFree(b);
          assert ok;                            // the panic is unreachable
          s := s.(inodes := s.inodes[ip := s.inodes[ip].(addrs := s.inodes[ip].addrs[i := 0])]);
        }
      }
    }

    /** The second half of itrunc: the entries of the indirect block, then the block itself. */
    method TruncIndirect(ip: nat, ind: nat, ghost s0: FS)
      requires Owned(s0, own) && ip < |s0.inodes| && ind == Slot(s0, ip, MAXFILE) != 0
      requires s.blocks == s0.blocks && Cleared(s0, own, ip, NDIRECT, s.used)
      modifies this`s, this`logged
      ensures Cleared(s0, own, ip, MAXFILE + 1, s.used)
      ensures s == old(s).(used := s.used)
    {
      for j := 0 to NINDIRECT
        invariant Cleared(s0, own, ip, NDIRECT + j, s.used)
        invariant s == old(s).(used := s.used)
      {
        ClearStep(s0, own, ip, NDIRECT + j, s.used);
        assert ind < |s0.blocks| && |s0.blocks[ind]| == BSIZE;
        var b := Word(s.blocks[ind], j);
        assert b == Slot(s0, ip, NDIRECT + j);
        if b != 0 {
          var ok := BFree(b);
          assert ok;
        }
      }
      ClearStep(s0, own, ip, MAXFILE, s.used);
      var ok := BFree(ind);
      assert ok;
    }

    /** itrunc: exactly the inode's blocks are freed, bfree never panics, the file is empty on
        disk and in memory, and every other file is as it was. */
    method ITrunc(ip: nat)
      requires Valid() && ip < |s.inodes|
      modifies this
      ensures Valid() && own == Others(old(own), ip)
      ensures Cleared(old(s), old(own), ip, MAXFILE + 1, s.used)
      ensures |s.inodes| == |old(s).inodes|
      ensures forall f :: 0 <= f < |s.inodes| ==> File(s, f) == if f == ip then [] else File(old(s), f)
    {
      hide Owned, Settled, Cleared, Shaped;
      ghost var s0 := s;
      IsShaped(s, own, ip);
      TruncDirect(ip);
      var ind := s.inodes[ip].addrs[NDIRECT];
      if ind != 0 {
        TruncIndirect(ip, ind, s0);
        s := s.(inodes := s.inodes[ip := s.inodes[ip].(addrs := s.inodes[ip].addrs[NDIRECT := 0])]);
      } else {
        NoIndirect(s0, own, ip, s.used);
      }
      s := s.(inodes := s.inodes[ip := s.inodes[ip].(size := 0)]);
      assert s.inodes[ip].addrs == seq(NDIRECT + 1, i => 0);
      IUpdate(ip);
      assert s == Truncated(s0, ip, s.used);
      TruncatedOk(s0, own, ip, s.used);
      own := Others(own, ip);
    }

    /** filewrite: one transaction per chunk.  off1 is the new file offset; transactions are
        the blocks each one logged, never more than begin_op reserved.  On success all of src
        is in the file; otherwise r is -1 and the chunks before the first that does not fit
        are in the file.  ok is false at balloc's panic. */
    method FileWrite(ip: nat, src: seq<int>, off: nat) returns (ok: bool, r: int, off1: nat,
            ghost transactions: seq<set<nat>>)
      requires Valid() && ip < |s.inodes| && off < UINT && |src| < 0x8000_0000
      modifies this
      ensures ok ==> Valid()
      ensures ok ==> forall i :: 0 <= i < |transactions| ==> |transactions[i]| <= MAXOPBLOCKS
      ensures ok && off <= old(s).inodes[ip].size ==>
        && off <= off1 <= off + |src| && WroteFile(old(s), s, ip, off, src[..off1 - off])
        && (off + |src| <= MAXBYTES ==> r == |src| && off1 == off + |src|)
        && (off + |src| > MAXBYTES ==> r == -1 && StopsAt(off, |src|, off1))
      ensures ok && off > old(s).inodes[ip].size ==> s == old(s) && off1 == off && r == if src == [] then 0 else -1
      ensures !ok ==> AllUsed(s)
    {
      hide AllSettled, WroteFile, AllUsed, LoggedWrite, FreeBlocks, WriteNeeds;
      ghost var s0 := s;
      transactions := [];
      off1 := off;
      var i, n := 0, |src|;
      assert src[..0] == [];
      WroteNothing(s, own, ip, off);
      SettledFacts(s, own);
      while i < n
        invariant 0 <= i <= n && off1 == off + i && (i % CHUNK == 0 || i == n)
        invariant Valid() && ip < |s.inodes| && Chunked(s0, s, ip, off, src[..i])
        invariant forall k :: 0 <= k < |transactions| ==> |transactions[k]| <= MAXOPBLOCKS
      {
        var n1 := if n - i > CHUNK then CHUNK else n - i;
        ok, r := WriteChunk(ip, src[i..i + n1], off1, off, src[..i], s0);
        if !ok { return false, 0, off1, transactions; }
        if r < 0 { break; }
        transactions := transactions + [logged];
        SliceStep(src, i, n1);
        off1 := off1 + n1;
        i := i + n1;
      }
      return true, if i == n then n else -1, off1, transactions;
    }

    /** One transaction of filewrite; xs is what the earlier ones wrote. */
    method WriteChunk(ip: nat, ys: seq<int>, off1: nat, off: nat, ghost xs: seq<int>, ghost s0: FS) returns (ok: bool,
            r: int)
      requires Valid() && ip < |s.inodes| && ip < |s0.inodes| && off1 == off + |xs| < UINT
      requires Chunked(s0, s, ip, off, xs) && 1 <= |ys| <= CHUNK
      modifies this
      ensures ok ==> Valid() && ip < |s.inodes|
      ensures ok && r < 0 ==> r == -1 && s == old(s) && Chunked(s0, s, ip, off, xs)
      ensures ok && r >= 0 ==> r == |ys| && Chunked(s0, s, ip, off, xs + ys) && |logged| <= MAXOPBLOCKS
      ensures ok && r >= 0 ==> LoggedWrite(old(s), s, ip, off1, |ys|, {}, logged)
      ensures ok ==> (r < 0 <==> off > s0.inodes[ip].size || off1 + |ys| > MAXBYTES)
      ensures off <= s0.inodes[ip].size && off1 + |ys| <= MAXBYTES ==>
        (ok <==> |FreeBlocks(old(s))| >= WriteNeeds(old(s).inodes[ip].size, off1, |ys|))
      ensures !ok ==> AllUsed(s)
    {
      hide Owned, Settled, WroteFile, AllUsed, WriteCost, LoggedWrite, FreeBlocks, WriteNeeds;
      logged := {};                                              // begin_op
      ghost var s1 := s;
      if off <= s0.inodes[ip].size { WroteSize(s0, s1, ip, off, xs); }
      ok, r := WriteI(ip, ys, off1);
      if ok && r >= 0 {
        ChunkFits(s1.inodes[ip].size, off1, |ys|);
        WroteTwice(s0, s1, s, ip, off, xs, ys);
      }
    }
  }
}
