/** The in-memory log of log.c: begin_op, log_write, end_op, commit and recovery, over a
    disk and the pinned (B_DIRTY) buffers of the cache. */
module Log {
  import opened Params
  import opened LogCrash
  import R = LogReserve

  lemma HomeBlocks(l: Layout, d: Disk, c: map<int, Block>, e: Disk)
    requires SameHome(l, e, Committed(d, c))
    ensures |e| == |d| && forall b :: 0 <= b < |e| && !l.InLog(b) ==> e[b] == if b in c then c[b] else d[b]
  {
  }

  class FsLog {
    const l: Layout              // log.start, log.size
    var disk: Disk
    var cached: map<int, Block>  // dirty buffers: modified in the cache, not on disk
    var outstanding: int
    var committing: bool
    var n: int                   // lh.n
    const block: array<int>      // lh.block
    ghost var ops: seq<R.Op>     // the outstanding operations
    ghost var history: seq<Disk> // the disk after each block write, oldest first

    /** initlog: attach to a disk after a boot and recover it. */
    constructor (l: Layout, disk: Disk, ghost e: Disk)
      requires Pending(l, disk, e)
      ensures this.l == l && fresh(block) && Valid() && State() == R.Init
      ensures SameHome(l, this.disk, e) && RecoverTrace(l, disk, [], history)
    {
      this.l := l;
      this.disk := disk;
      cached := map[];
      outstanding, committing, n := 0, false, 0;
      block := new int[LOGSIZE];
      ops, history := [], [];
      new;
      RecoverFromLog(e);
      assert block[..n] == [];
    }

    /** Facts that hold at every program point, inside commit too. */
    ghost predicate Shape()
      reads this, block
    {
      && block.Length == LOGSIZE
      && l.Capacity(n)
      && l.Fits(|disk|) && |disk[l.start].w| == WORDS
      && l.Loggable(|disk|, block[..n])
      && (forall b :: b in cached ==> 0 <= b < |disk| && !l.InLog(b))
    }

    /** What the log keeps between its locked sections. */
    ghost predicate Valid()
      reads this, block
    {
      && Shape()
      && Ready(l, disk, block[..n], cached)
      && outstanding == |ops|
      && R.Inv(State())
    }

    ghost function State(): (s: R.State)
      requires block.Length == LOGSIZE && 0 <= n <= LOGSIZE
      reads this, block
    {
      R.State(block[..n], ops, committing)
    }

    /** bread: the cached copy if the block is dirty, else the disk. */
    function Content(b: int): (c: Block)
      requires 0 <= b < |disk|
      reads this
    {
      if b in cached then cached[b] else disk[b]
    }

    /** bwrite: the buffer reaches the disk and is clean again. */
    method BWrite(b: int, data: Block)
      requires 0 <= b < |disk|
      modifies this`disk, this`cached, this`history
      ensures disk == old(disk)[b := data]
      ensures cached == old(cached) - {b}
      ensures history == old(history) + [disk]
    {
      disk := disk[b := data];
      cached := cached - {b};
      history := history + [disk];
    }

    method WriteHead()
      requires Shape()
      modifies this`disk, this`cached, this`history
      ensures Shape() && cached == old(cached)
      ensures disk == old(disk)[l.start := EncodeHead(old(disk)[l.start], block[..n])]
      ensures history == old(history) + [disk]
    {
      assert l.InLog(l.start);
      var hb := Content(l.start).w;
      ghost var was := hb;
      hb := hb[0 := n];
      for i := 0 to n
        invariant |hb| == WORDS && hb[0] == n
        invariant hb[1..1 + i] == block[..i]
        invariant hb[1 + i..] == was[1 + i..]
      {
        hb := hb[i + 1 := block[i]];
        assert block[..i + 1] == block[..i] + [block[i]];
      }
      assert hb == [n] + block[..n] + was[n + 1..];
      assert Block(hb) == EncodeHead(Block(was), block[..n]);
      BWrite(l.start, Block(hb));
    }

    method ReadHead()
      requires block.Length == LOGSIZE && Readable(l, disk) && cached == map[]
      modifies this`n, block
      ensures Shape() && block[..n] == DecodeHead(disk[l.start])
    {
      var lh := Content(l.start).w;
      n := lh[0];
      for i := 0 to n
        invariant n == lh[0]
        invariant forall j :: 0 <= j < i ==> block[j] == lh[j + 1]
      {
        block[i] := lh[i + 1];
      }
      assert block[..n] == DecodeHead(disk[l.start]);
    }

    method InstallTrans()
      requires Shape()
      modifies this`disk, this`cached, this`history
      ensures Shape() && disk == InstallAt(l, old(disk), block[..n], n)
      ensures InstallTrace(l, old(disk), block[..n], old(history), history, n)
      ensures cached == Without(old(cached), block[..n])
    {
      hide InstallTrace, Without;
      ghost var blocks, d := block[..n], disk;
      InstallTraceNone(l, d, blocks, history);
      WithoutNone(cached);
      assert blocks[..0] == [];
      for tail := 0 to n
        invariant Shape() && disk == InstallAt(l, d, blocks, tail)
        invariant InstallTrace(l, d, blocks, old(history), history, tail)
        invariant cached == Without(old(cached), blocks[..tail])
      {
        WithoutNext(old(cached), blocks, tail);
        var lbuf := Content(l.start + tail + 1);
        assert l.InLog(l.start + tail + 1);
        InstallLeavesLog(l, d, blocks, tail, l.start + tail + 1);
        InstallLeavesLog(l, d, blocks, tail + 1, l.start);
        InstallTraceNext(l, d, blocks, old(history), history, tail);
        BWrite(block[tail], lbuf);
      }
      assert blocks[..n] == blocks;
    }

    method WriteLog()
      requires Shape() && Ready(l, disk, block[..n], cached)
      modifies this`disk, this`cached, this`history
      ensures Shape() && cached == old(cached)
      ensures disk == LogAt(l, old(disk), block[..n], cached, n)
      ensures LogTrace(l, old(disk), block[..n], cached, old(history), history)
    {
      hide LogTraceTo;
      ghost var blocks, d, c := block[..n], disk, cached;
      LogTraceNone(l, d, blocks, c, history);
      for tail := 0 to n
        invariant Shape() && cached == c && disk == LogAt(l, d, blocks, c, tail)
        invariant LogTraceTo(l, d, blocks, c, old(history), history, tail)
      {
        LogTraceNext(l, d, blocks, c, old(history), history, tail);
        var from := Content(block[tail]);
        assert from == c[blocks[tail]];
        assert l.InLog(l.start + tail + 1);
        LogLeavesRest(l, d, blocks, c, tail + 1, l.start);
        BWrite(l.start + tail + 1, from);
      }
    }

    /** install_trans, lh.n = 0, write_head: the common tail of commit and recovery. */
    method Finish(ghost e: Disk)
      requires Shape() && Pending(l, disk, e)
      requires block[..n] == DecodeHead(disk[l.start])
      requires forall b :: b in cached ==> b in block[..n]
      modifies this`disk, this`cached, this`history, this`n
      ensures Shape() && n == 0 && cached == map[]
      ensures RecoverTrace(l, old(disk), old(history), history)
      ensures SameHome(l, disk, e) && disk[l.start].w[0] == 0
    {
      hide InstallTrace, InstallAt, RecoverTrace, SameHome, Installs;
      ghost var d, len := disk, n;
      InstallTrans();
      assert forall b :: b !in cached;
      n := 0;
      InstallLeavesLog(l, d, DecodeHead(d[l.start]), len, l.start);
      RecoverTraceParts(l, d, old(history), history);
      WriteHead();
      assert block[..n] == [];
      RecoverCompletes(l, d, e);
    }

    /** Every disk state that commit passes through is a state of CommitAt, so
        CrashAtomicity covers a crash at any of them; afterwards the transaction is home,
        the log is empty on disk and in memory, and no buffer is dirty. */
    method Commit()
      requires Shape() && Ready(l, disk, block[..n], cached)
      modifies this`disk, this`cached, this`history, this`n
      ensures Shape() && n == 0 && cached == map[]
      ensures CommitTrace(l, old(disk), old(block[..n]), old(cached), old(history), history)
      ensures SameHome(l, disk, Committed(old(disk), old(cached)))
      ensures disk[l.start].w[0] == 0
    {
      hide RecoverTrace, LogTraceTo, RecoverAt, RecoverLength;
      if n == 0 {
        assert forall b :: b !in cached;
      } else {
        ghost var blocks, d, c := block[..n], disk, cached;
        HeaderCommits(l, d, blocks, c);
        WriteLog();
        ghost var h1 := history;
        LogLeavesRest(l, d, blocks, c, n, l.start);
        WriteHead();
        assert disk == HeaderDisk(l, d, blocks, c);
        Finish(Committed(d, c));
        CommitTraceParts(l, d, blocks, c, old(history), h1, history);
      }
    }

    /** recover_from_log on a rebooted machine (empty cache): passes exactly through the
        states of RecoverAt, and leaves at home whatever was pending on the disk. */
    method RecoverFromLog(ghost e: Disk)
      requires block.Length == LOGSIZE && Pending(l, disk, e) && cached == map[]
      modifies this`disk, this`cached, this`history, this`n, block
      ensures Shape() && n == 0 && cached == map[]
      ensures RecoverTrace(l, old(disk), old(history), history)
      ensures SameHome(l, disk, e) && disk[l.start].w[0] == 0
    {
      ReadHead();
      Finish(e);
    }

    /** One pass of begin_op's loop: admitted, or told to sleep. */
    method BeginOp() returns (admitted: bool)
      requires Valid()
      modifies this`outstanding, this`ops
      ensures Valid()
      ensures admitted <==> !committing && n + (|old(ops)| + 1) * MAXOPBLOCKS <= LOGSIZE
      ensures ops == if admitted then old(ops) + [R.Op(0, false)] else old(ops)
      ensures admitted == R.CanBegin(old(State()))
      ensures State() == if admitted then R.Next(old(State()), R.Begin) else old(State())
    {
      if committing {
        return false;
      } else if n + (outstanding + 1) * MAXOPBLOCKS > LOGSIZE {
        return false;
      } else {
        R.StepKeepsInv(l.size, State(), R.Begin);
        outstanding := outstanding + 1;
        ops := ops + [R.Op(0, false)];
        return true;
      }
    }

    /** The tests at the head of log_write, made without the lock: false where the source panics. */
    method TestLog(ghost op: nat) returns (ok: bool)
      requires Valid() && op < |ops| && !ops[op].tested
      modifies this`ops
      ensures Valid() && ok == !R.WritePanics(l.size, old(State()))
      ensures ok <==> n < LOGSIZE && n < l.size - 1
      ensures State() == if ok then R.Next(old(State()), R.Test(op)) else old(State())
    {
      if n >= LOGSIZE || n >= l.size - 1 { return false; }
      if outstanding < 1 { return false; }
      R.StepKeepsInv(l.size, State(), R.Test(op));
      ops := ops[op := R.Op(ops[op].spent, true)];
      return true;
    }

    /** log_write's search for the block's number. */
    method FindLogged(b: int) returns (i: nat)
      requires 0 <= n <= block.Length
      ensures i <= n && (i < n ==> block[i] == b) && (i < n <==> b in block[..n])
    {
      i := 0;
      while i < n
        invariant 0 <= i <= n
        invariant b !in block[..i]
      {
        if block[i] == b { break; }
        i := i + 1;
      }
      assert i < n ==> block[..n][i] == b;
    }

    /** The rest of log_write, under the lock: the block's number is in the list once. The log
        area must have room for it, which the tests say only if nothing was stored since. */
    method StoreLog(ghost op: nat, b: int, data: Block)
      requires Valid() && 0 <= b < |disk| && !l.InLog(b)
      requires op < |ops| && ops[op].tested && (b in block[..n] || (ops[op].spent < MAXOPBLOCKS && n < l.size - 1))
      modifies this`n, this`cached, this`ops, block
      ensures Valid() && State() == R.Next(old(State()), R.Store(op, b)) && cached == old(cached)[b := data]
      ensures block[..n] == if b in old(block[..n]) then old(block[..n]) else old(block[..n]) + [b]
      ensures |ops| == |old(ops)|
      ensures ops[op] == R.Op(old(ops)[op].spent + (if b in old(block[..n]) then 0 else 1), false)
    {
      hide R.Inv, R.Unused, Ready;
      R.StepKeepsInv(l.size, State(), R.Store(op, b));
      ghost var was := block[..n];
      R.RoomToStore(State(), op, b);
      ReadyStore(l, disk, was, cached, b, data);
      var i := FindLogged(b);
      ops := ops[op := R.Op(ops[op].spent + (if i == n then 1 else 0), false)];
      block[i] := b;
      if i == n { n := n + 1; }
      assert block[..n] == if b in was then was else was + [b];
      cached := cached[b := data];
    }

    /** log_write by operation op of a home block whose new contents are data, with nobody in
        between.  Returns false where the source panics. */
    method LogWrite(ghost op: nat, b: int, data: Block) returns (ok: bool)
      requires Valid() && 0 <= b < |disk| && !l.InLog(b)
      requires op < |ops| && !ops[op].tested && (b in block[..n] || ops[op].spent < MAXOPBLOCKS)
      modifies this`n, this`cached, this`ops, block
      ensures Valid()
      ensures ok <==> old(n) < LOGSIZE && old(n) < l.size - 1
      ensures ok ==> block[..n] == if b in old(block[..n]) then old(block[..n]) else old(block[..n]) + [b]
      ensures ok == !R.WritePanics(l.size, old(State()))
      ensures ok ==> State() == R.Next(R.Next(old(State()), R.Test(op)), R.Store(op, b))
      ensures ok ==> cached == old(cached)[b := data]
      ensures !ok ==> State() == old(State()) && cached == old(cached)
    {
      ok := TestLog(op);
      if ok { StoreLog(op, b, data); }
    }

    /** end_op: the last outstanding operation commits everything that was logged, and leaves
        nothing in the log; any other leaves disk and log alone. */
    method EndOp(ghost op: nat)
      requires Valid() && op < |ops| && !ops[op].tested
      modifies this`outstanding, this`ops, this`committing, this`disk, this`cached, this`history, this`n
      ensures Valid()
      ensures var s := R.Next(old(State()), R.End(op));
        if s.committing
        then && State() == R.Next(s, R.Committed)
             && cached == map[]
             && SameHome(l, disk, Committed(old(disk), old(cached)))
             && CommitTrace(l, old(disk), old(block[..n]), old(cached), old(history), history)
        else State() == s && disk == old(disk) && cached == old(cached) && history == old(history)
      ensures ops == old(ops)[..op] + old(ops)[op + 1..] && !committing
      ensures |old(ops)| == 1 ==>
        && n == 0 && cached == map[] && |disk| == |old(disk)| && disk[l.start].w[0] == 0
        && forall b :: 0 <= b < |disk| && !l.InLog(b) ==>
             disk[b] == if b in old(cached) then old(cached)[b] else old(disk)[b]
      ensures |old(ops)| > 1 ==> n == old(n) && disk == old(disk) && cached == old(cached) && history == old(history)
    {
      hide CommitTrace, SameHome, Committed;
      R.StepKeepsInv(l.size, State(), R.End(op));
      outstanding := outstanding - 1;
      ops := ops[..op] + ops[op + 1..];
      assert !committing;                       // the panic in end_op is unreachable
      if outstanding == 0 {
        committing := true;
        R.StepKeepsInv(l.size, State(), R.Committed);
        Commit();
        HomeBlocks(l, old(disk), old(cached), disk);
        assert block[..n] == [];
        committing := false;
      }
    }
  }
}
