/** Which blocks a write allocates and which it logs (bmap, writei and balloc in fs.c), on values. */
module WriteLog {
  import opened Inode

  function BBlock(sb: Super, b: nat): (k: nat) { b / BPB + sb.bmapstart }
  function IBlock(sb: Super, i: nat): (k: nat) { i / IPB + sb.inodestart }

  ghost function FreeBlocks(s: FS): set<nat> { set b: nat | b < |s.used| && !s.used[b] }

  /** Blocks it takes to extend an inode from n to m data blocks: these and a new indirect block. */
  function Needed(n: nat, m: nat): int { m - n + if n <= NDIRECT < m then 1 else 0 }

  /** Inode ip went from n to m data blocks: it keeps the ones it had, and the new ones were free. */
  ghost predicate Extended(s: FS, t: FS, ip: nat, n: nat, m: nat) {
    && Shaped(s) && Shaped(t) && ip < |s.inodes| && ip < |t.inodes| && n <= m <= MAXFILE && t.sb == s.sb
    && (forall k :: 0 <= k < n ==> Slot(t, ip, k) == Slot(s, ip, k))
    && (n > NDIRECT ==> Slot(t, ip, MAXFILE) == Slot(s, ip, MAXFILE))
    && FreeBlocks(t) <= FreeBlocks(s) && |FreeBlocks(t)| == |FreeBlocks(s)| - Needed(n, m)
    && (forall k :: n <= k < m ==> Slot(t, ip, k) in FreeBlocks(s))
    && (n <= NDIRECT < m ==> Slot(t, ip, MAXFILE) in FreeBlocks(s))
  }

  lemma ExtendedNone(s: FS, ip: nat, n: nat)
    requires Shaped(s) && ip < |s.inodes| && n <= MAXFILE
    ensures Extended(s, s, ip, n, n)
  {
  }

  lemma ExtendedTrans(s: FS, t: FS, u: FS, ip: nat, n: nat, m: nat, l: nat)
    requires Extended(s, t, ip, n, m) && Extended(t, u, ip, m, l)
    ensures Extended(s, u, ip, n, l)
  {
    hide Slot, Shaped;
  }

  /** What changes neither a slot nor the bitmap extends nothing. */
  lemma ExtendedSame(s: FS, t: FS, u: FS, ip: nat, n: nat, m: nat)
    requires Extended(s, t, ip, n, m) && Shaped(u) && ip < |u.inodes| && u.sb == t.sb && u.used == t.used
    requires forall k :: 0 <= k <= MAXFILE ==> Slot(u, ip, k) == Slot(t, ip, k)
    ensures Extended(s, u, ip, n, m)
  {
    hide Slot, Shaped;
  }

  // The blocks logged.

  ghost function Data(s: FS, ip: nat, lo: nat, hi: nat): set<int>
    requires Shaped(s) && ip < |s.inodes| && hi <= MAXFILE
  {
    set k | lo <= k < hi :: Slot(s, ip, k)
  }

  ghost function Bitmaps(sb: Super, blocks: set<int>): set<int> { set b | b in blocks :: Bitmap(sb, b) }

  function Bitmap(sb: Super, b: int): int { if b >= 0 then BBlock(sb, b) else 0 }

  /** Logged by a write to data slots lo to hi that extended inode ip from n0 to n blocks: the
      blocks written, the bitmap blocks of the new ones, the indirect block if it got an
      entry, and its bitmap block if it is new. */
  ghost function LogSet(s: FS, ip: nat, lo: nat, hi: nat, n0: nat, n: nat): set<int>
    requires Shaped(s) && ip < |s.inodes| && hi <= MAXFILE && n <= MAXFILE
  {
    var ind := Slot(s, ip, MAXFILE);
    Data(s, ip, lo, hi) + Bitmaps(s.sb, Data(s, ip, n0, n))
      + (if n > n0 && n > NDIRECT then {ind} else {}) + (if n0 <= NDIRECT < n then {Bitmap(s.sb, ind)} else {})
  }

  lemma LogSetNone(s: FS, ip: nat, lo: nat, n: nat)
    requires Shaped(s) && ip < |s.inodes| && lo <= MAXFILE && n <= MAXFILE
    ensures LogSet(s, ip, lo, lo, n, n) == {}
  {
  }

  /** A round that only stores logs the block it stores to. */
  lemma LogSetStore(s: FS, ip: nat, lo: nat, hi: nat, n0: nat, n: nat)
    requires Shaped(s) && ip < |s.inodes| && lo <= hi < MAXFILE && n <= MAXFILE
    ensures LogSet(s, ip, lo, hi + 1, n0, n) == LogSet(s, ip, lo, hi, n0, n) + {Slot(s, ip, hi)}
  {
    assert Data(s, ip, lo, hi + 1) == Data(s, ip, lo, hi) + {Slot(s, ip, hi)};
  }

  /** A round that allocates slot n logs that block and its bitmap block; from NDIRECT on the
      indirect block too, and at NDIRECT the latter's bitmap block. */
  lemma LogSetGrow(s: FS, t: FS, ip: nat, lo: nat, n0: nat, n: nat)
    requires Extended(s, t, ip, n, n + 1) && lo <= n && n0 <= n
    ensures var b, ind := Slot(t, ip, n), Slot(t, ip, MAXFILE);
      LogSet(t, ip, lo, n + 1, n0, n + 1) == LogSet(s, ip, lo, n, n0, n) + {b, Bitmap(t.sb, b)}
        + (if n >= NDIRECT then {ind} else {}) + (if n == NDIRECT then {Bitmap(t.sb, ind)} else {})
  {
    hide Slot, Shaped, Bitmap;
    var b := Slot(t, ip, n);
    assert Data(t, ip, lo, n + 1) == Data(s, ip, lo, n) + {b};
    assert Data(t, ip, n0, n + 1) == Data(s, ip, n0, n) + {b};
    assert Bitmaps(t.sb, Data(s, ip, n0, n) + {b}) == Bitmaps(t.sb, Data(s, ip, n0, n)) + {Bitmap(t.sb, b)};
  }

  lemma LogSetSame(s: FS, t: FS, ip: nat, lo: nat, hi: nat, n0: nat, n: nat)
    requires Shaped(s) && Shaped(t) && ip < |s.inodes| && ip < |t.inodes| && t.sb == s.sb && hi <= MAXFILE
    requires n <= MAXFILE
    requires forall k :: 0 <= k <= MAXFILE ==> Slot(t, ip, k) == Slot(s, ip, k)
    ensures LogSet(t, ip, lo, hi, n0, n) == LogSet(s, ip, lo, hi, n0, n)
  {
    hide Slot, Shaped;
    assert forall a: nat, b: nat | b <= MAXFILE :: Data(t, ip, a, b) == Data(s, ip, a, b);
  }

  // How many.

  lemma CardUnion(a: set<int>, b: set<int>)
    ensures |a + b| <= |a| + |b|
  {
    assert |a + b| == |a| + |b| - |a * b|;
  }

  lemma {:induction false} DataCard(s: FS, ip: nat, lo: nat, hi: nat)
    requires Shaped(s) && ip < |s.inodes| && lo <= hi <= MAXFILE
    ensures |Data(s, ip, lo, hi)| <= hi - lo
    decreases hi
  {
    hide Slot, Shaped;
    if lo < hi {
      DataCard(s, ip, lo, hi - 1);
      assert Data(s, ip, lo, hi) == Data(s, ip, lo, hi - 1) + {Slot(s, ip, hi - 1)};
    } else {
      assert Data(s, ip, lo, hi) == {};
    }
  }

  lemma {:induction false} BitmapsCard(sb: Super, blocks: set<int>)
    ensures |Bitmaps(sb, blocks)| <= |blocks|
    decreases |blocks|
  {
    hide Bitmap;
    if b :| b in blocks {
      BitmapsCard(sb, blocks - {b});
      assert Bitmaps(sb, blocks) == Bitmaps(sb, blocks - {b}) + {Bitmap(sb, b)};
    } else {
      assert Bitmaps(sb, blocks) == {};
    }
  }

  /** Blocks logged, at most, by the given number of rounds that extend an inode from n0 to n
      blocks: one per round, a bitmap block per new block, the indirect block, and the
      bitmap block of a new indirect block. */
  function LogCost(rounds: nat, n0: nat, n: nat): (c: int) {
    rounds + (n - n0) + (if n > n0 && n > NDIRECT then 1 else 0) + (if n0 <= NDIRECT < n then 1 else 0)
  }

  lemma LogSetCard(s: FS, ip: nat, lo: nat, hi: nat, n0: nat, n: nat)
    requires Shaped(s) && ip < |s.inodes| && lo <= hi <= MAXFILE && n0 <= n <= MAXFILE
    ensures |LogSet(s, ip, lo, hi, n0, n)| <= LogCost(hi - lo, n0, n)
  {
    hide Slot, Shaped, Bitmap, Data, Bitmaps;
    var ind := Slot(s, ip, MAXFILE);
    var a, b := Data(s, ip, lo, hi), Bitmaps(s.sb, Data(s, ip, n0, n));
    DataCard(s, ip, lo, hi);
    DataCard(s, ip, n0, n);
    BitmapsCard(s.sb, Data(s, ip, n0, n));
    CardUnion(a, b);
    CardUnion(a + b, {ind});
    var c := a + b + (if n > n0 && n > NDIRECT then {ind} else {});
    CardUnion(c, {Bitmap(s.sb, ind)});
  }
}
