/** Pipes (pipe.c): a 512-byte ring with wrapping 32-bit counters, and the sleep/wakeup
    protocol of any number of readers and writers.

    A section is what runs without giving up p->lock: from acquiring it (or waking up with
    it) to sleeping or returning. */
module Pipe {

  const PIPESIZE := 512
  const WRAP := 0x1_0000_0000   // uint arithmetic

  /** How a section ends: the call returns, returns -1, or sleeps. */
  datatype Outcome = Done | Fail | Asleep

  /** The pipe as byte sequences: all bytes ever accepted and all bytes ever delivered. */
  datatype Contents = Contents(accepted: seq<char>, delivered: seq<char>, readopen: bool, writeopen: bool) {
    ghost predicate Ok() {
      delivered <= accepted && |accepted| - |delivered| <= PIPESIZE
    }
    function Used(): int { |accepted| - |delivered| }
  }

  function Min(a: int, b: int): int { if a < b then a else b }

  /** A write section for addr, of which the first i bytes went in earlier. */
  function WriteSpec(c: Contents, addr: seq<char>, i: nat, killed: bool): (r: (Contents, nat, Outcome))
    requires c.Ok() && i <= |addr|
  {
    var j := Min(|addr|, i + PIPESIZE - c.Used());
    (c.(accepted := c.accepted + addr[i..j]), j,
     if j == |addr| then Done else if !c.readopen || killed then Fail else Asleep)
  }

  /** A read section asking for n bytes. */
  function ReadSpec(c: Contents, n: int, killed: bool): (r: (Contents, seq<char>, Outcome))
    requires c.Ok()
  {
    if c.Used() == 0 && c.writeopen then
      (c, [], if killed then Fail else Asleep)
    else
      var m := Min(if n < 0 then 0 else n, c.Used());
      var got := c.accepted[|c.delivered|..|c.delivered| + m];
      (c.(delivered := c.delivered + got), got, Done)
  }

  /** The counters wrap at 2^32, a multiple of the ring size, so they still tell a full
      ring from an empty one and address the right cell. */
  lemma CountersAgree(w: nat, r: nat)
    requires r <= w <= r + PIPESIZE
    ensures (w % WRAP == (r % WRAP + PIPESIZE) % WRAP) <==> w == r + PIPESIZE
    ensures (w % WRAP == r % WRAP) <==> w == r
    ensures w % WRAP % PIPESIZE == w % PIPESIZE
    ensures (w % WRAP + 1) % WRAP == (w + 1) % WRAP
  {
    CounterRest(w);
    CounterRest(r);
    GapAgrees(w / WRAP, w % WRAP, r / WRAP, r % WRAP);
    SameCell(w / WRAP, w % WRAP);
    NextCounter(w / WRAP, w % WRAP);
  }

  lemma CounterRest(w: nat)
    ensures w == w / WRAP * WRAP + w % WRAP && 0 <= w % WRAP < WRAP
  {
  }

  /** Counters at most a ring apart, given by their wraps and what is left. */
  lemma GapAgrees(q: nat, x: nat, p: nat, y: nat)
    requires x < WRAP && y < WRAP && p * WRAP + y <= q * WRAP + x <= p * WRAP + y + PIPESIZE
    ensures (x == (y + PIPESIZE) % WRAP) <==> q * WRAP + x == p * WRAP + y + PIPESIZE
    ensures x == y <==> q * WRAP + x == p * WRAP + y
  {
    assert p <= q <= p + 1;
    assert (y + PIPESIZE) % WRAP == if y + PIPESIZE < WRAP then y + PIPESIZE else y + PIPESIZE - WRAP;
  }

  lemma SameCell(q: nat, x: nat)
    ensures x % PIPESIZE == (q * WRAP + x) % PIPESIZE
  {
    CellShift(q * 8388608, x);
  }

  lemma CellShift(k: nat, x: nat)
    ensures x % PIPESIZE == (k * PIPESIZE + x) % PIPESIZE
  {
  }

  lemma NextCounter(q: nat, x: nat)
    requires x < WRAP
    ensures (x + 1) % WRAP == (q * WRAP + x + 1) % WRAP
  {
    WrapShift(q, x + 1);
  }

  lemma WrapShift(q: nat, x: nat)
    ensures x % WRAP == (q * WRAP + x) % WRAP
  {
  }

  /** Bytes less than a ring apart lie in different cells. */
  lemma DistinctCells(k: nat, w: nat)
    requires k < w < k + PIPESIZE
    ensures k % PIPESIZE != w % PIPESIZE
  {
  }

  /** Bytes delivered after del, when what is delivered is always a prefix of what was accepted. */
  lemma Delivered(acc: seq<char>, del: seq<char>, got: seq<char>)
    requires del + got <= acc
    ensures |del| + |got| <= |acc| && got == acc[|del|..|del| + |got|]
  {
    assert acc[..|del + got|] == del + got;
  }

  class Ring {
    const data: array<char>
    var nread: nat
    var nwrite: nat
    var readopen: bool
    var writeopen: bool
    ghost var accepted: seq<char>
    ghost var delivered: seq<char>

    ghost function Abs(): (c: Contents)
      reads this
    {
      Contents(accepted, delivered, readopen, writeopen)
    }

    ghost predicate Valid()
      reads this, data
    {
      && data.Length == PIPESIZE
      && Abs().Ok()
      && nread == |delivered| % WRAP
      && nwrite == |accepted| % WRAP
      && forall k :: |delivered| <= k < |accepted| ==> data[k % PIPESIZE] == accepted[k]
    }

    /** pipealloc. */
    constructor ()
      ensures Valid() && Abs() == Contents([], [], true, true) && fresh(data)
    {
      data := new char[PIPESIZE];
      nread, nwrite, readopen, writeopen := 0, 0, true, true;
      accepted, delivered := [], [];
    }

    /** p->nread == p->nwrite, and p->nwrite == p->nread + PIPESIZE. */
    predicate Empty()
      reads this
    {
      nread == nwrite
    }

    predicate Full()
      reads this
    {
      nwrite == (nread + PIPESIZE) % WRAP
    }

    /** The wrapped counters tell an empty ring and a full one. */
    lemma RingAgrees()
      requires Valid()
      ensures Empty() <==> Abs().Used() == 0
      ensures Full() <==> Abs().Used() == PIPESIZE
      ensures Abs().Ok()
    {
      CountersAgree(|accepted|, |delivered|);
    }

    /** One section of pipewrite: the next bytes of addr go in, until they are all in or the ring is full. */
    method Write(addr: seq<char>, start: nat, killed: bool) returns (i: nat, out: Outcome)
      requires Valid() && start <= |addr|
      modifies this`nwrite, this`accepted, data
      ensures Valid()
      ensures start <= i <= |addr| && accepted == old(accepted) + addr[start..i]
      ensures out.Done? <==> i == |addr|
      ensures !out.Done? ==> |accepted| == |delivered| + PIPESIZE && (out.Fail? <==> !readopen || killed)
      ensures (Abs(), i, out) == WriteSpec(old(Abs()), addr, start, killed)
    {
      hide Valid, Full, Empty;
      RingAgrees();
      i := start;
      while i < |addr|
        invariant Valid() && start <= i <= |addr|
        invariant i <= Min(|addr|, start + PIPESIZE - old(Abs()).Used())
        invariant Abs() == old(Abs()).(accepted := old(accepted) + addr[start..i])
      {
        RingAgrees();
        if Full() {
          if !readopen || killed {
            return i, Fail;
          }
          return i, Asleep;                  // wakeup(&p->nread); sleep(&p->nwrite, ...)
        }
        Put(addr[i]);
        assert addr[start..i + 1] == addr[start..i] + [addr[i]];
        i := i + 1;
      }
      return i, Done;
    }

    method Put(c: char)
      requires Valid() && |accepted| < |delivered| + PIPESIZE
      modifies this`nwrite, this`accepted, data
      ensures Valid() && accepted == old(accepted) + [c]
    {
      CountersAgree(|accepted|, |delivered|);
      forall k | |delivered| <= k < |accepted| ensures k % PIPESIZE != |accepted| % PIPESIZE {
        DistinctCells(k, |accepted|);
      }
      data[nwrite % PIPESIZE] := c;
      nwrite := (nwrite + 1) % WRAP;
      accepted := accepted + [c];
    }

    method Get() returns (c: char)
      requires Valid() && |delivered| < |accepted|
      modifies this`nread, this`delivered
      ensures Valid() && delivered == old(delivered) + [c] && c == accepted[|old(delivered)|]
    {
      CountersAgree(|delivered|, |delivered|);
      c := data[nread % PIPESIZE];
      nread := (nread + 1) % WRAP;
      delivered := delivered + [c];
    }

    /** One section of piperead: the next n bytes, or as many as there are; it waits only for an empty open pipe. */
    method Read(n: int, killed: bool) returns (got: seq<char>, out: Outcome)
      requires Valid()
      modifies this`nread, this`delivered
      ensures Valid()
      ensures delivered == old(delivered) + got && delivered <= accepted
      ensures out.Done? <==> accepted != old(delivered) || !writeopen
      ensures out.Done? && n > 0 ==> |got| == Min(n, |accepted| - |old(delivered)|)
      ensures !out.Done? || n <= 0 ==> got == []
      ensures !out.Done? ==> (out.Fail? <==> killed)
      ensures (Abs(), got, out) == ReadSpec(old(Abs()), n, killed)
    {
      hide Valid, Full, Empty;
      got := [];
      RingAgrees();
      if Empty() && writeopen {
        return got, if killed then Fail else Asleep;
      }
      var i := 0;
      while i < n
        invariant Valid() && Abs().Ok() && i == |got| && (i <= n || i == 0)
        invariant delivered == old(delivered) + got
      {
        RingAgrees();
        if Empty() { break; }
        var c := Get();
        got := got + [c];
        i := i + 1;
      }
      RingAgrees();
      Delivered(accepted, old(delivered), got);
      return got, Done;
    }

    /** pipeclose of one end; says whether the pipe's page is freed. */
    method Close(writable: bool) returns (freed: bool)
      requires Valid()
      modifies this`readopen, this`writeopen
      ensures Valid()
      ensures Abs() == if writable then old(Abs()).(writeopen := false) else old(Abs()).(readopen := false)
      ensures freed <==> !readopen && !writeopen
    {
      if writable { writeopen := false; } else { readopen := false; }
      freed := !readopen && !writeopen;
    }
  }

  // ----- any number of processes -----

  /** A process inside pipewrite or piperead. */
  datatype Call = Writing(addr: seq<char>, i: nat, asleep: bool) | Reading(n: int, asleep: bool)

  datatype State = State(c: Contents, calls: map<nat, Call>)

  datatype Step =
    | StartWrite(p: nat, addr: seq<char>)
    | StartRead(p: nat, n: int)
    | WriteSection(p: nat, killed: bool)
    | ReadSection(p: nat, killed: bool)
    | Kill(p: nat)        // kill() makes a sleeper runnable
    | CloseRead
    | CloseWrite

  const Init := State(Contents([], [], true, true), map[])

  ghost predicate Enabled(s: State, st: Step) {
    && s.c.Ok()
    && match st
       case StartWrite(p, addr) => p !in s.calls && s.c.writeopen
       case StartRead(p, n) => p !in s.calls && s.c.readopen
       case WriteSection(p, _) =>
         p in s.calls && s.calls[p].Writing? && !s.calls[p].asleep && s.calls[p].i <= |s.calls[p].addr|
       case ReadSection(p, _) => p in s.calls && s.calls[p].Reading? && !s.calls[p].asleep
       case Kill(p) => p in s.calls
       // an end stays open while a process is using it
       case CloseRead => forall p :: p in s.calls ==> s.calls[p].Writing?
       case CloseWrite => forall p :: p in s.calls ==> s.calls[p].Reading?
  }

  /** wakeup(&p->nread) and wakeup(&p->nwrite). */
  function WakeReaders(calls: map<nat, Call>): (m: map<nat, Call>) {
    map p | p in calls :: if calls[p].Reading? then Reading(calls[p].n, false) else calls[p]
  }
  function WakeWriters(calls: map<nat, Call>): (m: map<nat, Call>) {
    map p | p in calls :: if calls[p].Writing? then Writing(calls[p].addr, calls[p].i, false) else calls[p]
  }

  ghost function Next(s: State, st: Step): (t: State)
    requires Enabled(s, st)
  {
    match st
    case StartWrite(p, addr) => s.(calls := s.calls[p := Writing(addr, 0, false)])
    case StartRead(p, n) => s.(calls := s.calls[p := Reading(n, false)])
    case WriteSection(p, killed) =>
      var (c, j, out) := WriteSpec(s.c, s.calls[p].addr, s.calls[p].i, killed);
      State(c, match out
               case Done => WakeReaders(s.calls) - {p}
               case Fail => s.calls - {p}                      // returns without a wakeup
               case Asleep => WakeReaders(s.calls)[p := Writing(s.calls[p].addr, j, true)])
    case ReadSection(p, killed) =>
      var (c, _, out) := ReadSpec(s.c, s.calls[p].n, killed);
      State(c, match out
               case Done => WakeWriters(s.calls) - {p}
               case Fail => s.calls - {p}
               case Asleep => s.calls[p := Reading(s.calls[p].n, true)])
    case Kill(p) => s.(calls := s.calls[p := s.calls[p].(asleep := false)])
    case CloseRead => State(s.c.(readopen := false), WakeWriters(s.calls))
    case CloseWrite => State(s.c.(writeopen := false), WakeReaders(s.calls))
  }

  /** No process sleeps on a condition that already holds. */
  ghost predicate WriterRested(s: State, p: nat) {
    p in s.calls && s.calls[p].Writing? && s.calls[p].asleep ==> s.c.Used() == PIPESIZE && s.c.readopen
  }
  ghost predicate ReaderRested(s: State, p: nat) {
    p in s.calls && s.calls[p].Reading? && s.calls[p].asleep ==> s.c.Used() == 0 && s.c.writeopen
  }
  ghost predicate Inv(s: State) {
    && s.c.Ok()
    && (forall p :: p in s.calls && s.calls[p].Writing? ==> s.calls[p].i <= |s.calls[p].addr|)
    && (forall p :: WriterRested(s, p))
  }
  ghost predicate ReadersRested(s: State) {
    forall p :: ReaderRested(s, p)
  }

  /** The section that strands readers: a killed writer (or one whose reader is gone) with more
      to write than the ring holds fills it and returns -1 without waking a sleeping reader. */
  predicate Strands(s: State, st: Step) {
    && st.WriteSection? && st.p in s.calls && s.calls[st.p].Writing?
    && (st.killed || !s.c.readopen) && |s.calls[st.p].addr| - s.calls[st.p].i > PIPESIZE
    && exists p :: p in s.calls && s.calls[p].Reading? && s.calls[p].asleep
  }

  lemma StepKeepsInv(s: State, st: Step)
    requires Inv(s) && Enabled(s, st)
    ensures Inv(Next(s, st))
  {
    StepOk(s, st);
    hide Next, WriterRested, Inv;
    forall p ensures WriterRested(Next(s, st), p) {
      WriterStays(s, st, p);
    }
    assert Inv(Next(s, st)) by {
      InvIs(Next(s, st));
    }
  }

  lemma InvIs(s: State)
    requires s.c.Ok() && (forall p :: p in s.calls && s.calls[p].Writing? ==> s.calls[p].i <= |s.calls[p].addr|)
    requires forall p :: WriterRested(s, p)
    ensures Inv(s)
  {
  }

  lemma StepOk(s: State, st: Step)
    requires Inv(s) && Enabled(s, st)
    ensures var t := Next(s, st);
      t.c.Ok() && forall p :: p in t.calls && t.calls[p].Writing? ==> t.calls[p].i <= |t.calls[p].addr|
  {
    hide WriterRested;
  }

  lemma WriterStays(s: State, st: Step, p: nat)
    requires Inv(s) && Enabled(s, st)
    ensures WriterRested(Next(s, st), p)
  {
    assert WriterRested(s, p);
  }

  /** A section leaves a reader asleep on a non-empty or closed pipe exactly when it is the
      failing write above. */
  lemma ReadersRestedIff(s: State, st: Step)
    requires Inv(s) && ReadersRested(s) && Enabled(s, st)
    ensures ReadersRested(Next(s, st)) <==> !Strands(s, st)
  {
    var t := Next(s, st);
    if Strands(s, st) {
      var p :| p in s.calls && s.calls[p].Reading? && s.calls[p].asleep;
      assert ReaderRested(s, p);
      assert !ReaderRested(t, p);
    } else {
      forall p ensures ReaderRested(t, p) {
        assert ReaderRested(s, p);
      }
    }
  }

  ghost predicate Run(s: State, steps: seq<Step>, t: State)
    decreases |steps|
  {
    if steps == [] then s == t
    else Enabled(s, steps[0]) && Run(Next(s, steps[0]), steps[1..], t)
  }

  /** No step of the run is a stranding section. */
  ghost predicate NoStranding(s: State, steps: seq<Step>)
    decreases |steps|
  {
    steps == [] || (Enabled(s, steps[0]) && !Strands(s, steps[0]) && NoStranding(Next(s, steps[0]), steps[1..]))
  }

  lemma {:induction false} RunKeepsInv(s: State, steps: seq<Step>, t: State)
    requires Inv(s) && Run(s, steps, t)
    ensures Inv(t)
    ensures ReadersRested(s) && NoStranding(s, steps) ==> ReadersRested(t)
    decreases |steps|
  {
    if steps != [] {
      StepKeepsInv(s, steps[0]);
      if ReadersRested(s) && NoStranding(s, steps) { ReadersRestedIff(s, steps[0]); }
      RunKeepsInv(Next(s, steps[0]), steps[1..], t);
    }
  }

  /** In every run of any processes: bytes come out in the order they went in, at most 512
      are in flight, no writer sleeps while there is room or after the reader has gone, and
      no reader sleeps while there are bytes or after the writer has gone, provided no
      failing write stranded it. */
  lemma PipeSafety(steps: seq<Step>, t: State)
    requires Run(Init, steps, t)
    ensures t.c.delivered <= t.c.accepted && |t.c.accepted| - |t.c.delivered| <= PIPESIZE
    ensures forall p :: WriterRested(t, p)
    ensures NoStranding(Init, steps) ==> ReadersRested(t)
  {
    RunKeepsInv(Init, steps, t);
  }

  /** The proviso is needed: a reader sleeps, a killed writer of 513 bytes fills the ring
      and fails, and the reader stays asleep on a full pipe. */
  lemma KilledWriterStrandsReader()
    ensures exists steps, t :: Run(Init, steps, t) && !ReadersRested(t)
  {
    var addr := seq(PIPESIZE + 1, i => 'x');
    var s1 := Next(Init, StartRead(0, 1));
    var s2 := Next(s1, ReadSection(0, false));
    var s3 := Next(s2, StartWrite(1, addr));
    var s4 := Next(s3, WriteSection(1, true));
    assert s2.calls[0].asleep;
    assert s4.c.Used() == PIPESIZE;
    assert !ReaderRested(s4, 0);
    var steps := [StartRead(0, 1), ReadSection(0, false), StartWrite(1, addr), WriteSection(1, true)];
    assert Run(s4, [], s4);
    assert steps[1..][1..][1..] == [WriteSection(1, true)];
    assert Run(s3, steps[1..][1..][1..], s4);
    assert Run(s2, steps[1..][1..], s4);
    assert Run(s1, steps[1..], s4);
    assert Run(Init, steps, s4);
  }
}
