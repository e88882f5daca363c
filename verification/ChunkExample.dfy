/** A volume on which one chunk of filewrite (file.c) fills the log space of one operation. */
module ChunkExample {
  import opened Params
  import opened Inode
  import opened WriteLog
  import opened Files

  // Inode 5 holds 11 blocks and one byte; the only free blocks lie in four different bitmap blocks.

  const SB := Super(20985, 32, 58, 64)
  const SIZE := 11 * BSIZE + 1
  const FREE: set<nat> := {4095, 8191, 12287, 16383}

  function FullIno(i: nat): Ino {
    if i == 5 then Ino(SIZE, seq(NDIRECT + 1, k requires 0 <= k <= NDIRECT => if k < 12 then 989 + k else 0))
    else Ino(0, seq(NDIRECT + 1, k => 0))
  }

  function FullFS(): FS {
    var zero := Zero();
    var inodes := seq(6, i requires 0 <= i < 6 => FullIno(i));
    FS(SB, seq(SB.size, b => zero), seq(SB.size, b requires 0 <= b < SB.size => b !in FREE), inodes, inodes)
  }

  predicate InFile(b: nat) { 989 <= b <= 1000 }

  ghost function FullOwn(): Owners { map b: nat | b <= 1000 && InFile(b) :: Owner(5, b - 989) }

  lemma FullSlots(i: nat, k: nat)
    requires i < 6 && k <= MAXFILE
    ensures Shaped(FullFS()) && |FullFS().inodes| == 6
    ensures Slot(FullFS(), i, k) == if i == 5 && k < 12 then 989 + k else 0
  {
    FullShaped();
  }

  lemma FullShaped()
    ensures Shaped(FullFS()) && |FullFS().inodes| == 6
  {
    var s := FullFS();
    hide Zero;
  }

  lemma FullOwned()
    ensures Owned(FullFS(), FullOwn())
  {
    var s, own := FullFS(), FullOwn();
    FullShaped();
    forall i, k | 0 <= i < 6 && 0 <= k <= MAXFILE ensures Slot(s, i, k) == if i == 5 && k < 12 then 989 + k else 0 {
      FullSlots(i, k);
    }
    hide Slot, Shaped, FullIno;
  }

  lemma FullSettled()
    ensures AllSettled(FullFS(), FullOwn())
  {
    var s, own := FullFS(), FullOwn();
    FullOwned();
    FullShaped();
    hide Slot, Shaped, Owned;
    forall f | 0 <= f < |s.inodes| ensures Settled(s, f) {
      FullMapped(f);
    }
  }

  lemma FullMapped(f: nat)
    requires f < 6
    ensures Shaped(FullFS()) && f < |FullFS().inodes| && Settled(FullFS(), f)
  {
    var s := FullFS();
    FullShaped();
    forall k | 0 <= k <= MAXFILE ensures Slot(s, f, k) == if f == 5 && k < 12 then 989 + k else 0 {
      FullSlots(f, k);
    }
    hide Slot, Shaped;
    assert NBlocks(s.inodes[f].size) == if f == 5 then 12 else 0;
  }

  lemma FullFree()
    ensures FreeBlocks(FullFS()) == FREE && |FREE| == 4
  {
    hide Zero;
  }

  lemma ChunkSizes()
    ensures NBlocks(SIZE) == 12 && Held(12, SIZE, CHUNK) == 15 && Rounds(SIZE, CHUNK) == 4 && SIZE / BSIZE == 11
    ensures WriteNeeds(SIZE, SIZE, CHUNK) == 4 && SIZE + CHUNK <= MAXBYTES
  {
    assert NBlocks(SIZE + CHUNK) == 15;
  }

  lemma Four(a: nat, b: nat, c: nat, d: nat, s: set<nat>)
    requires {a, b, c, d} <= s && |s| == 4 && a != b && a != c && a != d && b != c && b != d && c != d
    ensures {a, b, c, d} == s
  {
    assert |{a, b, c, d}| == 4;
    assert |s - {a, b, c, d}| == 0;
    assert s == {a, b, c, d} + (s - {a, b, c, d});
  }

  /** Whatever slot gets which block, the four free blocks are used up. */
  lemma SlotsTaken(s: FS, own: Owners)
    requires Extended(FullFS(), s, 5, 12, 15) && Owned(s, own)
    ensures {Slot(s, 5, 12), Slot(s, 5, 13), Slot(s, 5, 14), Slot(s, 5, MAXFILE)} == FREE && Slot(s, 5, 11) == 1000
  {
    FullFree();
    FullSlots(5, 11);
    hide Slot, Shaped, FreeBlocks, FullFS;
    var a, b, c, d := Slot(s, 5, 12), Slot(s, 5, 13), Slot(s, 5, 14), Slot(s, 5, MAXFILE);
    assert own[a] == Owner(5, 12) && own[b] == Owner(5, 13) && own[c] == Owner(5, 14) && own[d] == Owner(5, MAXFILE);
    Four(a, b, c, d, FREE);
  }

  lemma TenBlocks(s: FS, own: Owners, l: set<nat>)
    requires LoggedWrite(FullFS(), s, 5, SIZE, CHUNK, {}, l) && Owned(s, own)
    ensures |l| == MAXOPBLOCKS
  {
    ChunkSizes();
    FullInode();
    hide FullFS, Held, Rounds, NBlocks, Slot, Shaped, Data, Bitmaps, Bitmap, IBlock;
    SlotsTaken(s, own);
    var a, b, c, d := Slot(s, 5, 12), Slot(s, 5, 13), Slot(s, 5, 14), Slot(s, 5, MAXFILE);
    DataIs(s);
    Regroup(SB, a, b, c, d, IBlock(SB, 5), l);
    TenDistinct();
  }

  lemma DataIs(s: FS)
    requires Shaped(s) && 5 < |s.inodes|
    ensures Data(s, 5, 11, 15) == {Slot(s, 5, 11), Slot(s, 5, 12), Slot(s, 5, 13), Slot(s, 5, 14)}
    ensures Data(s, 5, 12, 15) == {Slot(s, 5, 12), Slot(s, 5, 13), Slot(s, 5, 14)}
  {
    hide Slot, Shaped;
  }

  lemma Regroup(sb: Super, a: int, b: int, c: int, d: int, i: int, l: set<int>)
    requires l == {} + ({1000, a, b, c} + Bitmaps(sb, {a, b, c}) + {d} + {Bitmap(sb, d)}) + {i}
    ensures l == {1000} + {a, b, c, d} + Bitmaps(sb, {a, b, c, d}) + {i}
  {
    hide Bitmap;
    assert Bitmaps(sb, {a, b, c, d}) == Bitmaps(sb, {a, b, c}) + {Bitmap(sb, d)};
    hide Bitmaps;
  }

  lemma Apart(a: set<int>, b: set<int>)
    requires a !! b
    ensures |a + b| == |a| + |b|
  {
  }

  lemma FourBitmaps()
    ensures Bitmaps(SB, FREE) == {58, 59, 60, 61}
  {
    assert Bitmap(SB, 4095) == 58 && Bitmap(SB, 8191) == 59 && Bitmap(SB, 12287) == 60 && Bitmap(SB, 16383) == 61;
    hide Bitmap;
  }

  lemma TenDistinct()
    ensures |{1000} + FREE + Bitmaps(SB, FREE) + {IBlock(SB, 5)}| == 10
  {
    FourBitmaps();
    hide Bitmaps;
    assert IBlock(SB, 5) == 32;
    var maps: set<int> := {58, 59, 60, 61};
    Apart({1000}, FREE);
    Apart({1000} + FREE, maps);
    Apart({1000} + FREE + maps, {32});
    assert |maps| == 4 && |FREE| == 4;
  }

  /** The bound of ChunkFits is reached: this chunk logs the old last block, three new ones, the
      new indirect block, four bitmap blocks and the inode block. */
  method ChunkFillsLog(src: seq<int>) returns (v: Volume, r: int)
    requires |src| == CHUNK
    ensures v.Valid() && r == CHUNK && |v.logged| == MAXOPBLOCKS
  {
    hide FullFS, FullOwn, AllSettled, LoggedWrite, FreeBlocks, WriteNeeds, AllUsed, Chunked;
    FullSettled();
    FullFree();
    ChunkSizes();
    FullInode();
    v := new Volume(FullFS(), FullOwn());
    StartChunk();
    var ok;
    ok, r := v.WriteChunk(5, src, SIZE, SIZE, [], FullFS());
    SettledOwned(v.s, v.own);
    TenBlocks(v.s, v.own, v.logged);
  }

  lemma FullInode()
    ensures |FullFS().inodes| == 6 && FullFS().inodes[5].size == SIZE && FullFS().sb == SB
  {
  }

  lemma StartChunk()
    ensures Chunked(FullFS(), FullFS(), 5, SIZE, [])
  {
    FullSettled();
    FullInode();
    WroteNothing(FullFS(), FullOwn(), 5, SIZE);
  }

  lemma SettledOwned(s: FS, own: Owners)
    requires AllSettled(s, own)
    ensures Owned(s, own)
  {
  }
}
