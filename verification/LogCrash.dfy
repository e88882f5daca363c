/** The on-disk redo log (log.c) as the disk states that commit() and
    recover_from_log() pass through, one per block write, with a crash possible at any.

    A disk is a sequence of blocks that are written atomically.  The log occupies
    blocks [start, start + size): a header block, then one log block per entry.
    Every other block is a "home" block. */
module LogCrash {
  import opened Params

  /** A disk block, read as 32-bit words. */
  datatype Block = Block(w: seq<int>)
  type Disk = seq<Block>

  /** Where the log lives on the disk (superblock fields logstart and nlog). */
  datatype Layout = Layout(start: nat, size: nat) {
    predicate Fits(len: nat) {
      1 <= size && start + size <= len < 0x8000_0000
    }
    predicate InLog(b: int) {
      start <= b < start + size
    }
    /** Entries the header array and the log area can both hold. */
    predicate Capacity(n: int) {
      0 <= n <= LOGSIZE && n <= size - 1
    }
    /** A list of home blocks that can be logged. */
    predicate Loggable(len: nat, blocks: seq<int>) {
      && Capacity(|blocks|)
      && forall i :: 0 <= i < |blocks| ==> 0 <= blocks[i] < len && !InLog(blocks[i])
    }
  }

  // ----- the header block -----

  /** write_head: fill in n and block[0..n), leave the other words alone. */
  function EncodeHead(prior: Block, blocks: seq<int>): (b: Block)
    requires |prior.w| == WORDS && |blocks| <= LOGSIZE
    ensures |b.w| == WORDS
  {
    Block([|blocks|] + blocks + prior.w[|blocks| + 1..])
  }

  /** read_head: word 0 is the count, the next words are block numbers. */
  function DecodeHead(b: Block): (blocks: seq<int>)
    requires |b.w| == WORDS && 0 <= b.w[0] <= LOGSIZE
  {
    b.w[1..1 + b.w[0]]
  }

  lemma HeadRoundTrip(prior: Block, blocks: seq<int>)
    requires |prior.w| == WORDS && |blocks| <= LOGSIZE
    ensures EncodeHead(prior, blocks).w[0] == |blocks|
    ensures DecodeHead(EncodeHead(prior, blocks)) == blocks
  {
    assert |DecodeHead(EncodeHead(prior, blocks))| == |blocks|;
  }

  /** The disk carries a log that recovery can read. */
  predicate Readable(l: Layout, d: Disk) {
    && l.Fits(|d|)
    && |d[l.start].w| == WORDS
    && l.Capacity(d[l.start].w[0])
    && l.Loggable(|d|, DecodeHead(d[l.start]))
  }

  // ----- the disk after k block writes -----

  /** write_log: copies the cached contents of blocks[i] to log block i. */
  function LogAt(l: Layout, d: Disk, blocks: seq<int>, cached: map<int, Block>, k: nat): (r: Disk)
    requires k <= |blocks| && l.Fits(|d|) && l.Loggable(|d|, blocks)
    requires forall i :: 0 <= i < |blocks| ==> blocks[i] in cached
    ensures |r| == |d|
  {
    if k == 0 then d else LogAt(l, d, blocks, cached, k - 1)[l.start + k := cached[blocks[k - 1]]]
  }

  /** install_trans: copies log block i over home block blocks[i]. */
  function InstallAt(l: Layout, d: Disk, blocks: seq<int>, k: nat): (r: Disk)
    requires k <= |blocks| && l.Fits(|d|) && l.Loggable(|d|, blocks)
    ensures |r| == |d|
  {
    if k == 0 then d else InstallAt(l, d, blocks, k - 1)[blocks[k - 1] := d[l.start + k]]
  }

  /** Block writes of a recovery: one per listed block, then the cleared header. */
  function RecoverLength(l: Layout, d: Disk): (n: nat)
    requires Readable(l, d)
  {
    |DecodeHead(d[l.start])| + 1
  }

  /** recover_from_log after k block writes. */
  function RecoverAt(l: Layout, d: Disk, k: nat): (r: Disk)
    requires Readable(l, d) && k <= RecoverLength(l, d)
    ensures |r| == |d|
  {
    var blocks := DecodeHead(d[l.start]);
    if k <= |blocks| then InstallAt(l, d, blocks, k)
    else InstallAt(l, d, blocks, |blocks|)[l.start := EncodeHead(d[l.start], [])]
  }

  /** The disk right after the header write of a commit. */
  function HeaderDisk(l: Layout, d: Disk, blocks: seq<int>, cached: map<int, Block>): (h: Disk)
    requires Ready(l, d, blocks, cached)
    ensures |h| == |d|
  {
    LogAt(l, d, blocks, cached, |blocks|)[l.start := EncodeHead(d[l.start], blocks)]
  }

  /** Block writes of a commit: none for an empty transaction, otherwise the log blocks,
      the header, the home blocks and the cleared header. */
  function CommitLength(blocks: seq<int>): (n: nat) {
    if blocks == [] then 0 else 2 * |blocks| + 2
  }

  /** commit after k block writes: what follows the header write is what recovery would
      do to the disk at that point. */
  function CommitAt(l: Layout, d: Disk, blocks: seq<int>, cached: map<int, Block>, k: nat): (r: Disk)
    requires Ready(l, d, blocks, cached) && k <= CommitLength(blocks)
    ensures |r| == |d|
  {
    if k <= |blocks| then LogAt(l, d, blocks, cached, k)
    else
      HeaderCommits(l, d, blocks, cached);
      RecoverAt(l, HeaderDisk(l, d, blocks, cached), k - |blocks| - 1)
  }

  // ----- what recovery makes of a disk -----

  /** Same contents outside the log. */
  predicate SameHome(l: Layout, d: Disk, e: Disk) {
    && |d| == |e|
    && forall b :: 0 <= b < |d| && !l.InLog(b) ==> d[b] == e[b]
  }

  /** The home contents a reader of the cache sees: the transaction applied at once. */
  function Committed(d: Disk, cached: map<int, Block>): (r: Disk)
  {
    seq(|d|, b requires 0 <= b < |d| => if b in cached then cached[b] else d[b])
  }

  /** Installing the log blocks of d at blocks gives the home disk e, in any order: a
      listed home block has e's value in its log block, every unlisted home block
      already holds e's value. */
  predicate Installs(l: Layout, d: Disk, blocks: seq<int>, e: Disk)
    requires l.Fits(|d|) && l.Loggable(|d|, blocks) && |d| == |e|
  {
    && (forall i :: 0 <= i < |blocks| ==> d[l.start + 1 + i] == e[blocks[i]])
    && (forall b :: 0 <= b < |d| && !l.InLog(b) ==> d[b] == e[b] || b in blocks)
  }

  /** The home disk e is pending in d: installing what d's header lists gives e. */
  predicate Pending(l: Layout, d: Disk, e: Disk) {
    && Readable(l, d)
    && |d| == |e|
    && Installs(l, d, DecodeHead(d[l.start]), e)
  }

  /** The transaction is ready to commit: the dirty buffers are the logged blocks and
      the log on disk is empty. */
  predicate Ready(l: Layout, d: Disk, blocks: seq<int>, cached: map<int, Block>) {
    && l.Fits(|d|)
    && l.Loggable(|d|, blocks)
    && |d[l.start].w| == WORDS && d[l.start].w[0] == 0
    && (forall i :: 0 <= i < |blocks| ==> blocks[i] in cached)
    && (forall b :: b in cached ==> b in blocks)
  }

  /** log_write of block b keeps the log ready, whether b is listed already or not. */
  lemma ReadyStore(l: Layout, d: Disk, blocks: seq<int>, cached: map<int, Block>, b: int, data: Block)
    requires Ready(l, d, blocks, cached) && 0 <= b < |d| && !l.InLog(b)
    requires b !in blocks ==> l.Capacity(|blocks| + 1)
    ensures Ready(l, d, if b in blocks then blocks else blocks + [b], cached[b := data])
  {
  }

  // ----- installing -----

  lemma InstallOne(l: Layout, d: Disk, blocks: seq<int>, e: Disk, i: nat)
    requires l.Fits(|d|) && l.Loggable(|d|, blocks) && |d| == |e| && Installs(l, d, blocks, e)
    requires i < |blocks|
    ensures Installs(l, d[blocks[i] := e[blocks[i]]], blocks, e)
  {
  }

  /** Installing leaves the log area alone. */
  lemma {:induction false} InstallLeavesLog(l: Layout, d: Disk, blocks: seq<int>, k: nat, b: nat)
    requires l.Fits(|d|) && l.Loggable(|d|, blocks) && l.InLog(b) && k <= |blocks|
    ensures InstallAt(l, d, blocks, k)[b] == d[b]
  {
    if k > 0 { InstallLeavesLog(l, d, blocks, k - 1, b); }
  }

  lemma {:induction false} InstallKeeps(l: Layout, d: Disk, blocks: seq<int>, e: Disk, k: nat)
    requires l.Fits(|d|) && l.Loggable(|d|, blocks) && |d| == |e| && Installs(l, d, blocks, e)
    requires k <= |blocks|
    ensures Installs(l, InstallAt(l, d, blocks, k), blocks, e)
  {
    if k > 0 {
      InstallKeeps(l, d, blocks, e, k - 1);
      var m := InstallAt(l, d, blocks, k - 1);
      assert d[l.start + 1 + (k - 1)] == e[blocks[k - 1]];
      assert InstallAt(l, d, blocks, k) == m[blocks[k - 1] := e[blocks[k - 1]]];
      InstallOne(l, m, blocks, e, k - 1);
    }
  }

  lemma {:induction false} Installed(l: Layout, d: Disk, blocks: seq<int>, e: Disk, k: nat, i: nat)
    requires l.Fits(|d|) && l.Loggable(|d|, blocks) && |d| == |e| && Installs(l, d, blocks, e)
    requires i < k <= |blocks|
    ensures InstallAt(l, d, blocks, k)[blocks[i]] == e[blocks[i]]
  {
    assert d[l.start + 1 + (k - 1)] == e[blocks[k - 1]];
    if i < k - 1 { Installed(l, d, blocks, e, k - 1, i); }
  }

  /** After every listed block is installed, the home blocks are those of e. */
  lemma InstallCompletes(l: Layout, d: Disk, blocks: seq<int>, e: Disk)
    requires l.Fits(|d|) && l.Loggable(|d|, blocks) && |d| == |e| && Installs(l, d, blocks, e)
    ensures SameHome(l, InstallAt(l, d, blocks, |blocks|), e)
  {
    var r := InstallAt(l, d, blocks, |blocks|);
    InstallKeeps(l, d, blocks, e, |blocks|);
    forall b | 0 <= b < |d| && !l.InLog(b) ensures r[b] == e[b] {
      if b in blocks {
        var i :| 0 <= i < |blocks| && blocks[i] == b;
        Installed(l, d, blocks, e, |blocks|, i);
      }
    }
  }

  /** A disk with a cleared header has its own home disk pending. */
  lemma ClearedPends(l: Layout, m: Disk, e: Disk)
    requires l.Fits(|m|) && SameHome(l, m, e) && |m[l.start].w| == WORDS && m[l.start].w[0] == 0
    ensures Pending(l, m, e)
  {
    assert DecodeHead(m[l.start]) == [];
  }

  /** Every crash point of recovery leaves the same home disk pending. */
  lemma RecoverKeepsPending(l: Layout, d: Disk, e: Disk, k: nat)
    requires Pending(l, d, e) && k <= RecoverLength(l, d)
    ensures Pending(l, RecoverAt(l, d, k), e)
  {
    var blocks := DecodeHead(d[l.start]);
    if k <= |blocks| {
      InstallKeeps(l, d, blocks, e, k);
      InstallLeavesLog(l, d, blocks, k, l.start);
    } else {
      RecoverCompletes(l, d, e);
      ClearedPends(l, RecoverAt(l, d, k), e);
    }
  }

  /** Completed recovery leaves exactly the pending home disk and an empty log. */
  lemma RecoverCompletes(l: Layout, d: Disk, e: Disk)
    requires Pending(l, d, e)
    ensures var r := RecoverAt(l, d, RecoverLength(l, d));
      SameHome(l, r, e) && |r[l.start].w| == WORDS && r[l.start].w[0] == 0
  {
    var blocks := DecodeHead(d[l.start]);
    InstallCompletes(l, d, blocks, e);
    HeadRoundTrip(d[l.start], []);
    assert l.InLog(l.start);
  }

  // ----- committing -----

  /** write_log only touches log blocks. */
  lemma {:induction false} LogLeavesRest(l: Layout, d: Disk, blocks: seq<int>, cached: map<int, Block>, k: nat, b: nat)
    requires Ready(l, d, blocks, cached) && k <= |blocks|
    requires b < |d| && (b == l.start || !l.InLog(b))
    ensures LogAt(l, d, blocks, cached, k)[b] == d[b]
  {
    if k > 0 { LogLeavesRest(l, d, blocks, cached, k - 1, b); }
  }

  lemma {:induction false} Logged(l: Layout, d: Disk, blocks: seq<int>, cached: map<int, Block>, k: nat, i: nat)
    requires Ready(l, d, blocks, cached) && i < k <= |blocks|
    ensures LogAt(l, d, blocks, cached, k)[l.start + 1 + i] == cached[blocks[i]]
  {
    if i < k - 1 { Logged(l, d, blocks, cached, k - 1, i); }
  }

  /** Before the header write, the old home disk is pending. */
  lemma BeforeHeader(l: Layout, d: Disk, blocks: seq<int>, cached: map<int, Block>, k: nat)
    requires Ready(l, d, blocks, cached) && k <= |blocks|
    ensures Pending(l, LogAt(l, d, blocks, cached, k), d)
  {
    var r := LogAt(l, d, blocks, cached, k);
    LogLeavesRest(l, d, blocks, cached, k, l.start);
    forall b | 0 <= b < |d| && !l.InLog(b) ensures r[b] == d[b] {
      LogLeavesRest(l, d, blocks, cached, k, b);
    }
    ClearedPends(l, r, d);
  }

  /** The header write switches what is pending from the old home disk to the new one. */
  lemma HeaderCommits(l: Layout, d: Disk, blocks: seq<int>, cached: map<int, Block>)
    requires Ready(l, d, blocks, cached)
    ensures var h := HeaderDisk(l, d, blocks, cached);
      Pending(l, h, Committed(d, cached)) && DecodeHead(h[l.start]) == blocks
  {
    var h := HeaderDisk(l, d, blocks, cached);
    var e := Committed(d, cached);
    HeadRoundTrip(d[l.start], blocks);
    assert l.InLog(l.start);
    forall i | 0 <= i < |blocks| ensures h[l.start + 1 + i] == e[blocks[i]] {
      Logged(l, d, blocks, cached, |blocks|, i);
    }
    forall b | 0 <= b < |d| && !l.InLog(b) ensures h[b] == e[b] || b in blocks {
      LogLeavesRest(l, d, blocks, cached, |blocks|, b);
    }
  }

  /** After k block writes of a commit, either the old or the new home disk is pending,
      and which one depends only on whether the header write is among the k. */
  lemma CommitPoint(l: Layout, d: Disk, blocks: seq<int>, cached: map<int, Block>, k: nat)
    requires Ready(l, d, blocks, cached) && k <= CommitLength(blocks)
    ensures Pending(l, CommitAt(l, d, blocks, cached, k),
                    if k <= |blocks| then d else Committed(d, cached))
  {
    hide LogAt, RecoverAt, HeaderDisk, Pending, Committed;
    if k <= |blocks| {
      BeforeHeader(l, d, blocks, cached, k);
    } else {
      HeaderCommits(l, d, blocks, cached);
      RecoverKeepsPending(l, HeaderDisk(l, d, blocks, cached), Committed(d, cached), k - |blocks| - 1);
    }
  }

  /** Recoveries one after the other: recovery j crashes after crashes[j] block writes. */
  predicate CrashedRecoveries(l: Layout, d: Disk, crashes: seq<nat>, r: Disk)
    decreases |crashes|
  {
    if crashes == [] then r == d
    else
      && Readable(l, d)
      && crashes[0] <= RecoverLength(l, d)
      && CrashedRecoveries(l, RecoverAt(l, d, crashes[0]), crashes[1..], r)
  }

  lemma {:induction false} CrashesKeepPending(l: Layout, d: Disk, e: Disk, crashes: seq<nat>, r: Disk)
    requires Pending(l, d, e)
    requires CrashedRecoveries(l, d, crashes, r)
    ensures Pending(l, r, e)
    decreases |crashes|
  {
    if crashes != [] {
      RecoverKeepsPending(l, d, e, crashes[0]);
      CrashesKeepPending(l, RecoverAt(l, d, crashes[0]), e, crashes[1..], r);
    }
  }

  /** Crash atomicity.  commit() crashes after k of its block writes, any number of
      recoveries crash after any number of theirs, and one recovery completes: then
      every home block is as before the transaction, or every home block is as after
      it, and the header write alone decides which. */
  lemma CrashAtomicity(l: Layout, d: Disk, blocks: seq<int>, cached: map<int, Block>,
                       k: nat, crashes: seq<nat>, r: Disk)
    requires Ready(l, d, blocks, cached) && k <= CommitLength(blocks)
    requires CrashedRecoveries(l, CommitAt(l, d, blocks, cached, k), crashes, r)
    ensures Readable(l, r)
    ensures var final := RecoverAt(l, r, RecoverLength(l, r));
      && SameHome(l, final, if k <= |blocks| then d else Committed(d, cached))
      && |final[l.start].w| == WORDS && final[l.start].w[0] == 0
  {
    var e := if k <= |blocks| then d else Committed(d, cached);
    CommitPoint(l, d, blocks, cached, k);
    CrashesKeepPending(l, CommitAt(l, d, blocks, cached, k), e, crashes, r);
    RecoverCompletes(l, r, e);
  }

  // ----- recorded histories -----

  /** Between histories h0 and h1 the disk d went through k copies of install_trans. */
  ghost predicate InstallTrace(l: Layout, d: Disk, blocks: seq<int>, h0: seq<Disk>, h1: seq<Disk>, k: nat)
    requires l.Fits(|d|) && l.Loggable(|d|, blocks) && k <= |blocks| && l.Capacity(|blocks|)
  {
    && |h1| == |h0| + k && h0 <= h1
    && forall j :: 1 <= j <= k ==> h1[|h0| + j - 1] == InstallAt(l, d, blocks, j)
  }

  /** The dirty buffers that are left when those of the given blocks have been written. */
  ghost function Without(cached: map<int, Block>, blocks: seq<int>): map<int, Block> {
    map b | b in cached && b !in blocks :: cached[b]
  }

  lemma WithoutNone(cached: map<int, Block>)
    ensures Without(cached, []) == cached
  {
  }

  lemma WithoutNext(cached: map<int, Block>, blocks: seq<int>, k: nat)
    requires k < |blocks|
    ensures Without(cached, blocks[..k]) - {blocks[k]} == Without(cached, blocks[..k + 1])
  {
    assert blocks[..k + 1] == blocks[..k] + [blocks[k]];
  }

  lemma InstallTraceNone(l: Layout, d: Disk, blocks: seq<int>, h: seq<Disk>)
    requires l.Fits(|d|) && l.Loggable(|d|, blocks) && l.Capacity(|blocks|)
    ensures InstallTrace(l, d, blocks, h, h, 0)
  {
  }

  lemma InstallTraceNext(l: Layout, d: Disk, blocks: seq<int>, h0: seq<Disk>, h1: seq<Disk>, k: nat)
    requires l.Fits(|d|) && l.Loggable(|d|, blocks) && k < |blocks| && l.Capacity(|blocks|)
    requires InstallTrace(l, d, blocks, h0, h1, k)
    ensures InstallTrace(l, d, blocks, h0, h1 + [InstallAt(l, d, blocks, k + 1)], k + 1)
  {
  }

  /** Between histories h0 and h1 the disk d went through the states of a recovery. */
  ghost predicate RecoverTrace(l: Layout, d: Disk, h0: seq<Disk>, h1: seq<Disk>) {
    && Readable(l, d)
    && |h1| == |h0| + RecoverLength(l, d) && h0 <= h1
    && forall k :: 1 <= k <= RecoverLength(l, d) ==> h1[|h0| + k - 1] == RecoverAt(l, d, k)
  }

  /** install_trans and then the cleared header are a whole recovery. */
  lemma RecoverTraceParts(l: Layout, d: Disk, h0: seq<Disk>, h1: seq<Disk>)
    requires Readable(l, d)
    requires var blocks := DecodeHead(d[l.start]); InstallTrace(l, d, blocks, h0, h1, |blocks|)
    ensures RecoverTrace(l, d, h0, h1 + [RecoverAt(l, d, RecoverLength(l, d))])
  {
    var blocks := DecodeHead(d[l.start]);
    var h2 := h1 + [RecoverAt(l, d, RecoverLength(l, d))];
    hide InstallAt, DecodeHead, EncodeHead, Readable;
    forall k | 1 <= k <= RecoverLength(l, d) ensures h2[|h0| + k - 1] == RecoverAt(l, d, k) {
      if k <= |blocks| {
        assert h2[|h0| + k - 1] == h1[|h0| + k - 1];
      }
    }
  }

  /** Between histories h0 and h1 the disk d went through the states of write_log. */
  ghost predicate LogTrace(l: Layout, d: Disk, blocks: seq<int>, cached: map<int, Block>, h0: seq<Disk>,
          h1: seq<Disk>) {
    LogTraceTo(l, d, blocks, cached, h0, h1, |blocks|)
  }

  ghost predicate LogTraceTo(l: Layout, d: Disk, blocks: seq<int>, cached: map<int, Block>, h0: seq<Disk>,
          h1: seq<Disk>, n: nat) {
    && Ready(l, d, blocks, cached) && n <= |blocks|
    && |h1| == |h0| + n && h0 <= h1
    && forall k :: 1 <= k <= n ==> h1[|h0| + k - 1] == LogAt(l, d, blocks, cached, k)
  }

  lemma LogTraceNone(l: Layout, d: Disk, blocks: seq<int>, cached: map<int, Block>, h: seq<Disk>)
    requires Ready(l, d, blocks, cached)
    ensures LogTraceTo(l, d, blocks, cached, h, h, 0)
  {
  }

  lemma LogTraceNext(l: Layout, d: Disk, blocks: seq<int>, cached: map<int, Block>, h0: seq<Disk>, h1: seq<Disk>,
          n: nat)
    requires LogTraceTo(l, d, blocks, cached, h0, h1, n) && n < |blocks|
    ensures LogTraceTo(l, d, blocks, cached, h0, h1 + [LogAt(l, d, blocks, cached, n + 1)], n + 1)
  {
    hide LogAt, Ready;
  }

  /** Between histories h0 and h1 the disk d went through the states of a commit. */
  ghost predicate CommitTrace(l: Layout, d: Disk, blocks: seq<int>, cached: map<int, Block>, h0: seq<Disk>,
          h1: seq<Disk>) {
    && Ready(l, d, blocks, cached)
    && |h1| == |h0| + CommitLength(blocks) && h0 <= h1
    && forall k :: 1 <= k <= CommitLength(blocks) ==> h1[|h0| + k - 1] == CommitAt(l, d, blocks, cached, k)
  }

  lemma CommitTraceParts(l: Layout, d: Disk, blocks: seq<int>, cached: map<int, Block>,
                         h0: seq<Disk>, h1: seq<Disk>, h2: seq<Disk>)
    requires Ready(l, d, blocks, cached) && blocks != []
    requires LogTrace(l, d, blocks, cached, h0, h1)
    requires RecoverTrace(l, HeaderDisk(l, d, blocks, cached), h1 + [HeaderDisk(l, d, blocks, cached)], h2)
    ensures CommitTrace(l, d, blocks, cached, h0, h2)
  {
    HeaderLength(l, d, blocks, cached);
    hide LogAt, RecoverAt, HeaderDisk, Ready, RecoverLength, Readable, CommitAt;
    forall k | 1 <= k <= CommitLength(blocks) ensures h2[|h0| + k - 1] == CommitAt(l, d, blocks, cached, k) {
      CommitTraceAt(l, d, blocks, cached, h0, h1, h2, k);
    }
  }

  lemma CommitTraceAt(l: Layout, d: Disk, blocks: seq<int>, cached: map<int, Block>,
                      h0: seq<Disk>, h1: seq<Disk>, h2: seq<Disk>, k: nat)
    requires Ready(l, d, blocks, cached) && 1 <= k <= CommitLength(blocks)
    requires LogTrace(l, d, blocks, cached, h0, h1)
    requires RecoverTrace(l, HeaderDisk(l, d, blocks, cached), h1 + [HeaderDisk(l, d, blocks, cached)], h2)
    ensures |h0| + k <= |h2| && h2[|h0| + k - 1] == CommitAt(l, d, blocks, cached, k)
  {
    HeaderLength(l, d, blocks, cached);
    hide LogAt, RecoverAt, HeaderDisk, Ready, RecoverLength, Readable;
    var h := HeaderDisk(l, d, blocks, cached);
    var n := |blocks|;
    if k <= n {
      assert h2[|h0| + k - 1] == (h1 + [h])[|h0| + k - 1] == h1[|h0| + k - 1];
    } else if k == n + 1 {
      assert h2[|h0| + k - 1] == (h1 + [h])[|h1|];
    } else {
      assert h2[|h1 + [h]| + (k - n - 1) - 1] == RecoverAt(l, h, k - n - 1);
    }
  }

  lemma HeaderLength(l: Layout, d: Disk, blocks: seq<int>, cached: map<int, Block>)
    requires Ready(l, d, blocks, cached)
    ensures var h := HeaderDisk(l, d, blocks, cached);
      Readable(l, h) && RecoverLength(l, h) == |blocks| + 1 && RecoverAt(l, h, 0) == h
  {
    HeaderCommits(l, d, blocks, cached);
    hide HeaderDisk;
  }
}
