/** The process table (proc.c): allocproc, fork, exit, wait, sleep, wakeup1, kill and the
    scheduler, each section under ptable.lock being one step. */
module ProcTable {

  datatype PState = Unused | Embryo | Sleeping | Runnable | Running | Zombie

  /** A sleep channel: a process (wait sleeps on curproc) or any other kernel address. */
  datatype Chan = NoChan | OnProc(p: int) | OnAddr(a: int)

  const NULL := -1

  /** parent is an index into the table or NULL. */
  datatype Proc = Proc(state: PState, pid: int, parent: int, chan: Chan, killed: bool)

  type Table = seq<Proc>

  // ----- what each table operation does -----

  /** wakeup1: every process sleeping on chan becomes runnable. */
  function Wake(q: Proc, chan: Chan): (r: Proc) {
    if q.state == Sleeping && q.chan == chan then q.(state := Runnable) else q
  }
  function WakeAll(t: Table, chan: Chan): (r: Table) {
    seq(|t|, i requires 0 <= i < |t| => Wake(t[i], chan))
  }

  predicate ZombieChild(t: Table, p: int, i: int) {
    0 <= i < |t| && t[i].parent == p && t[i].state == Zombie
  }

  /** exit, for one table entry: the parent is woken, children go to init, init is woken if
      it inherits a zombie, and p becomes a zombie. */
  ghost function ExitEntry(t: Table, p: nat, init: nat, i: nat): (r: Proc)
    requires p < |t| && i < |t|
  {
    var q := Wake(t[i], OnProc(t[p].parent));
    var q := if exists j :: ZombieChild(t, p, j) then Wake(q, OnProc(init)) else q;
    var q := if q.parent == p then q.(parent := init) else q;
    if i == p then q.(state := Zombie) else q
  }
  ghost function ExitAll(t: Table, p: nat, init: nat): (r: Table)
    requires p < |t|
    ensures |r| == |t|
  {
    seq(|t|, i requires 0 <= i < |t| => ExitEntry(t, p, init, i))
  }

  /** Result of one pass of wait's loop. */
  datatype WaitResult = Reaped(child: nat) | NoChildren | MustSleep

  function Reap(q: Proc): (r: Proc) {
    q.(state := Unused, pid := 0, parent := NULL, killed := false)
  }

  function AfterWait(t: Table, p: nat, r: WaitResult): (u: Table)
    requires p < |t| && (r.Reaped? ==> r.child < |t|)
  {
    match r
    case Reaped(c) => t[c := Reap(t[c])]
    case NoChildren => t
    case MustSleep => t[p := t[p].(chan := OnProc(p), state := Sleeping)]
  }

  /** The pass of wait that process p must take: the first zombie child, else -1 when there
      is no child or p was killed, else sleep. */
  ghost predicate WaitPass(t: Table, p: nat, r: WaitResult)
    requires p < |t|
  {
    match r
    case Reaped(c) => ZombieChild(t, p, c) && forall j :: 0 <= j < c ==> !ZombieChild(t, p, j)
    case NoChildren =>
      && (forall j :: !ZombieChild(t, p, j))
      && ((forall j :: 0 <= j < |t| ==> t[j].parent != p) || t[p].killed)
    case MustSleep =>
      && (forall j :: !ZombieChild(t, p, j))
      && (exists j :: 0 <= j < |t| && t[j].parent == p) && !t[p].killed
  }

  // ----- the operations, in place -----

  class Procs {
    const proc: array<Proc>
    var nextpid: int
    const init: nat

    /** The table as main() leaves it: userinit has made process 1 runnable. */
    constructor (n: nat, init: nat)
      requires init < n
      ensures fresh(proc) && proc[..] == Boot(n, init).t && nextpid == 2 && this.init == init
      ensures Inv(Boot(n, init))
    {
      proc := new Proc[n](i =>
        Proc(if i == init then Runnable else Unused, if i == init then 1 else 0, NULL, NoChan, false));
      nextpid := 2;
      this.init := init;
      BootKeepsInv(n, init);
    }

    method Wakeup1(chan: Chan)
      modifies proc
      ensures forall j :: 0 <= j < proc.Length ==>
        proc[j] == if old(proc[j]).state == Sleeping && old(proc[j]).chan == chan
                   then old(proc[j]).(state := Runnable) else old(proc[j])
      ensures proc[..] == WakeAll(old(proc[..]), chan)
    {
      for i := 0 to proc.Length
        invariant forall j :: 0 <= j < i ==> proc[j] == Wake(old(proc[j]), chan)
        invariant forall j :: i <= j < proc.Length ==> proc[j] == old(proc[j])
      {
        if proc[i].state == Sleeping && proc[i].chan == chan {
          proc[i] := proc[i].(state := Runnable);
        }
      }
    }

    /** allocproc under the lock: the first unused entry becomes an embryo. */
    method AllocProc() returns (r: int)
      modifies this`nextpid, proc
      ensures r == NULL || 0 <= r < proc.Length
      ensures r == NULL ==>
        && proc[..] == old(proc[..]) && nextpid == old(nextpid)
        && forall j :: 0 <= j < proc.Length ==> proc[j].state != Unused
      ensures r != NULL ==>
        && old(proc[r]).state == Unused
        && (forall j :: 0 <= j < r ==> proc[j].state != Unused)
        && proc[..] == old(proc[..])[r := old(proc[r]).(state := Embryo, pid := old(nextpid))]
        && nextpid == old(nextpid) + 1
    {
      for i := 0 to proc.Length
        invariant forall j :: 0 <= j < i ==> proc[j].state != Unused
      {
        if proc[i].state == Unused {
          proc[i] := proc[i].(state := Embryo, pid := nextpid);
          nextpid := nextpid + 1;
          return i;
        }
      }
      return NULL;
    }

    /** exit under the lock. */
    method Exit(p: nat)
      requires p < proc.Length && proc[p].state == Running
      modifies proc
      ensures proc[..] == ExitAll(old(proc[..]), p, init)
    {
      ghost var t := proc[..];
      Wakeup1(OnProc(proc[p].parent));
      ghost var u := proc[..];
      ghost var woken := false;
      for i := 0 to proc.Length
        invariant woken <==> exists j :: 0 <= j < i && ZombieChild(t, p, j)
        invariant forall j :: 0 <= j < proc.Length ==>
          proc[j] == Adopt(if woken then Wake(u[j], OnProc(init)) else u[j], p, init, j < i)
      {
        ghost var before := proc[..];
        assert u[i] == Wake(t[i], OnProc(t[p].parent));
        assert before[i].parent == t[i].parent && (before[i].state == Zombie <==> t[i].state == Zombie);
        if proc[i].parent == p {
          proc[i] := proc[i].(parent := init);
          if proc[i].state == Zombie {
            assert ZombieChild(t, p, i);
            Wakeup1(OnProc(init));
            woken := true;
          }
        }
      }
      proc[p] := proc[p].(state := Zombie);
      assert woken <==> exists j :: ZombieChild(t, p, j);
      forall j | 0 <= j < proc.Length ensures proc[j] == ExitEntry(t, p, init, j) {
        assert u[j] == Wake(t[j], OnProc(t[p].parent));
      }
    }

    /** One pass of wait's loop by process p. */
    method Wait(p: nat) returns (r: WaitResult)
      requires p < proc.Length && proc[p].state == Running
      modifies proc
      ensures r.Reaped? ==> r.child < proc.Length
      ensures WaitPass(old(proc[..]), p, r)
      ensures proc[..] == AfterWait(old(proc[..]), p, r)
    {
      ghost var t := proc[..];
      var havekids := false;
      for i := 0 to proc.Length
        invariant havekids <==> exists j :: 0 <= j < i && t[j].parent == p
        invariant forall j :: 0 <= j < i ==> !ZombieChild(t, p, j)
        invariant proc[..] == t
      {
        if proc[i].parent == p {
          havekids := true;
          if proc[i].state == Zombie {
            proc[i] := Reap(proc[i]);
            return Reaped(i);
          }
        }
      }
      if !havekids || proc[p].killed {
        return NoChildren;
      }
      proc[p] := proc[p].(chan := OnProc(p), state := Sleeping);
      return MustSleep;
    }

    /** kill: the first entry with that pid is marked, and made runnable if asleep. */
    method Kill(pid: int) returns (r: int)
      modifies proc
      ensures r == NULL || 0 <= r < proc.Length
      ensures r == NULL ==> proc[..] == old(proc[..]) && forall j :: 0 <= j < proc.Length ==> proc[j].pid != pid
      ensures r != NULL ==>
        && old(proc[r]).pid == pid
        && (forall j :: 0 <= j < r ==> old(proc[j]).pid != pid)
        && proc[..] == old(proc[..])[r := KillOne(old(proc[r]))]
        && proc[r].killed && proc[r].state != Sleeping
        && proc[r] == old(proc[r]).(killed := true, state := proc[r].state)
        && (if old(proc[r]).state == Sleeping then proc[r].state == Runnable else proc[r].state == old(proc[r]).state)
    {
      for i := 0 to proc.Length
        invariant forall j :: 0 <= j < i ==> proc[j].pid != pid
      {
        if proc[i].pid == pid {
          proc[i] := proc[i].(killed := true);
          if proc[i].state == Sleeping {
            proc[i] := proc[i].(state := Runnable);
          }
          return i;
        }
      }
      return NULL;
    }
  }

  function KillOne(q: Proc): (r: Proc) {
    q.(killed := true, state := if q.state == Sleeping then Runnable else q.state)
  }

  function Adopt(q: Proc, p: nat, init: nat, done: bool): (r: Proc) {
    if done && q.parent == p then q.(parent := init) else q
  }

  /** What exit of p does to entry i: children go to init; p is a zombie; whoever sleeps on p's parent wakes, and
      whoever sleeps on init if init inherits a zombie; nothing else changes. */
  lemma ExitSays(t: Table, p: nat, init: nat, i: nat)
    requires p < |t| && i < |t|
    ensures var q, r := t[i], ExitAll(t, p, init)[i];
      && r == q.(state := r.state, parent := if q.parent == p then init else q.parent)
      && (i == p ==> r.state == Zombie)
      && (i != p && q.state != Sleeping ==> r.state == q.state)
      && (i != p && q.state == Sleeping ==>
            (r.state == Runnable || r.state == Sleeping)
            && (r.state == Runnable <==>
                  || q.chan == OnProc(t[p].parent)
                  || (q.chan == OnProc(init) && exists j :: 0 <= j < |t| && t[j].parent == p && t[j].state == Zombie)))
  {
    assert (exists j :: ZombieChild(t, p, j)) <==>
        exists j :: 0 <= j < |t| && t[j].parent == p && t[j].state == Zombie by {
      if j :| 0 <= j < |t| && t[j].parent == p && t[j].state == Zombie {
        assert ZombieChild(t, p, j);
      }
    }
  }

  /** What a pass of wait by p finds and leaves: the first zombie child is reaped; without one p returns if it has no
      child or was killed, and else sleeps on itself. */
  lemma WaitSays(t: Table, p: nat, r: WaitResult)
    requires p < |t| && (r.Reaped? ==> r.child < |t|) && WaitPass(t, p, r)
    ensures r.Reaped? ==>
      && t[r.child].parent == p && t[r.child].state == Zombie
      && (forall j :: 0 <= j < r.child && t[j].parent == p ==> t[j].state != Zombie)
      && AfterWait(t, p, r) == t[r.child := t[r.child].(state := Unused, pid := 0, parent := NULL, killed := false)]
    ensures !r.Reaped? ==>
      && (forall j :: 0 <= j < |t| && t[j].parent == p ==> t[j].state != Zombie)
      && (r.NoChildren? <==> (forall j :: 0 <= j < |t| ==> t[j].parent != p) || t[p].killed)
      && AfterWait(t, p, r) == if r.NoChildren? then t else t[p := t[p].(chan := OnProc(p), state := Sleeping)]
  {
    forall j | 0 <= j < |t| && t[j].parent == p && t[j].state == Zombie ensures ZombieChild(t, p, j) {
    }
  }

  // ----- runs -----

  /** What a process is in the middle of, besides its table entry. */
  datatype Activity = User | Forking(child: nat, parented: bool)

  /** reaped lists the pids returned by wait, oldest first. */
  datatype State = State(t: Table, nextpid: int, init: nat, act: seq<Activity>, reaped: seq<int>)

  datatype Step =
    | ForkAlloc(p: nat, c: nat)     // allocproc found c
    | ForkFail(p: nat)              // kalloc or copyuvm failed
    | ForkParent(p: nat)            // np->parent = curproc
    | ForkDone(p: nat)              // np->state = RUNNABLE
    | DoExit(p: nat)
    | DoWait(p: nat, r: WaitResult)
    | Dispatch(p: nat)              // the scheduler runs p
    | Yield(p: nat)
    | Sleep(p: nat, a: int)         // sleep on any other channel
    | Wakeup(a: int)
    | DoKill(i: nat)                // kill() found entry i

  function Boot(n: nat, init: nat): (s: State) {
    State(seq(n, i => Proc(if i == init then Runnable else Unused, if i == init then 1 else 0, NULL, NoChan, false)),
          2, init, seq(n, i => User), [])
  }

  ghost predicate Enabled(s: State, st: Step) {
    && |s.act| == |s.t| && s.init < |s.t|
    && match st
       case ForkAlloc(p, c) => RunsUser(s, p) && c < |s.t| && s.t[c].state == Unused
       case ForkFail(p) => Forks(s, p) && !s.act[p].parented
       case ForkParent(p) => Forks(s, p) && !s.act[p].parented
       case ForkDone(p) => Forks(s, p) && s.act[p].parented
       case DoExit(p) => RunsUser(s, p) && p != s.init
       case DoWait(p, r) => RunsUser(s, p) && (r.Reaped? ==> r.child < |s.t|) && WaitPass(s.t, p, r)
       case Dispatch(p) => p < |s.t| && s.t[p].state == Runnable
       case Yield(p) => p < |s.t| && s.t[p].state == Running
       case Sleep(p, a) => p < |s.t| && s.t[p].state == Running
       case Wakeup(a) => true
       case DoKill(i) => KillHits(s.t, i)
  }
  /** kill stops at the first entry with the pid. */
  ghost predicate KillHits(t: Table, i: nat) {
    i < |t| && forall j :: 0 <= j < i ==> t[j].pid != t[i].pid
  }
  predicate RunsUser(s: State, p: nat) {
    p < |s.t| && p < |s.act| && s.t[p].state == Running && s.act[p].User?
  }
  predicate Forks(s: State, p: nat) {
    p < |s.t| && p < |s.act| && s.t[p].state == Running && s.act[p].Forking? && s.act[p].child < |s.t|
  }

  ghost function Next(s: State, st: Step): (u: State)
    requires Enabled(s, st)
  {
    match st
    case ForkAlloc(p, c) =>
      s.(t := s.t[c := s.t[c].(state := Embryo, pid := s.nextpid)], nextpid := s.nextpid + 1,
         act := s.act[p := Forking(c, false)])
    case ForkFail(p) =>
      var c := s.act[p].child;
      s.(t := s.t[c := s.t[c].(state := Unused)], act := s.act[p := User])
    case ForkParent(p) =>
      var c := s.act[p].child;
      s.(t := s.t[c := s.t[c].(parent := p)], act := s.act[p := Forking(c, true)])
    case ForkDone(p) =>
      var c := s.act[p].child;
      s.(t := s.t[c := s.t[c].(state := Runnable)], act := s.act[p := User])
    case DoExit(p) => s.(t := ExitAll(s.t, p, s.init))
    case DoWait(p, r) =>
      s.(t := AfterWait(s.t, p, r), reaped := if r.Reaped? then s.reaped + [s.t[r.child].pid] else s.reaped)
    case Dispatch(p) => s.(t := s.t[p := s.t[p].(state := Running, chan := NoChan)])
    case Yield(p) => s.(t := s.t[p := s.t[p].(state := Runnable)])
    case Sleep(p, a) => s.(t := s.t[p := s.t[p].(state := Sleeping, chan := OnAddr(a))])
    case Wakeup(a) => s.(t := WakeAll(s.t, OnAddr(a)))
    case DoKill(i) => s.(t := s.t[i := KillOne(s.t[i])])
  }

  /** A process that can be a parent: neither free, nor being made, nor exited. */
  predicate Alive(q: Proc) {
    q.state == Sleeping || q.state == Runnable || q.state == Running
  }

  /** A parent pointer names a live process. */
  predicate GoodParent(t: Table, i: nat)
    requires i < |t|
  {
    t[i].parent == NULL || (0 <= t[i].parent < |t| && t[i].parent != i && Alive(t[t[i].parent]))
  }
  /** Whether an entry must have a parent: free entries have none, zombies and all live
      processes but init have one. */
  predicate GoodEntry(q: Proc, isInit: bool) {
    && (isInit ==> Alive(q) && q.parent == NULL)
    && (q.state == Unused ==> q.parent == NULL)
    && (q.state == Zombie || (Alive(q) && !isInit) ==> q.parent != NULL)
  }
  ghost predicate TreeInv(t: Table, init: nat) {
    && (forall i :: 0 <= i < |t| ==> GoodParent(t, i))
    && (forall i :: 0 <= i < |t| ==> GoodEntry(t[i], i == init))
  }
  /** Forking processes are alive and own distinct embryos. */
  ghost predicate ForkInv(t: Table, act: seq<Activity>)
    requires |act| == |t|
  {
    && (forall p :: 0 <= p < |t| && act[p].Forking? ==>
         && Alive(t[p]) && act[p].child < |t| && t[act[p].child].state == Embryo
         && t[act[p].child].parent == (if act[p].parented then p else NULL))
    && (forall p, q :: 0 <= p < q < |t| && act[p].Forking? && act[q].Forking? ==> act[p].child != act[q].child)
  }
  predicate Waits(t: Table, p: int) {
    0 <= p < |t| && t[p].state == Sleeping && t[p].chan == OnProc(p)
  }
  /** No process sleeps in wait while it has a zombie child, and only wait sleeps on a
      process, its own entry. */
  ghost predicate WaitInv(t: Table) {
    && (forall c :: 0 <= c < |t| && t[c].state == Zombie ==> !Waits(t, t[c].parent))
    && (forall p :: 0 <= p < |t| && t[p].state == Sleeping && t[p].chan.OnProc? ==> t[p].chan == OnProc(p))
  }
  /** Pids in use are positive, new and never among those already reaped, and no two
      entries share one (an unused entry has pid 0 or the pid of a failed fork). */
  ghost predicate PidInv(t: Table, nextpid: int, reaped: seq<int>) {
    && (forall i :: 0 <= i < |t| ==> 0 <= t[i].pid < nextpid && t[i].pid !in reaped)
    && (forall i :: 0 <= i < |t| && t[i].state != Unused ==> t[i].pid != 0)
    && (forall i, j :: 0 <= i < j < |t| && t[i].pid == t[j].pid ==> t[i].pid == 0)
    && (forall k :: 0 <= k < |reaped| ==> 0 < reaped[k] < nextpid)
    && (forall j, k :: 0 <= j < k < |reaped| ==> reaped[j] != reaped[k])
  }
  ghost predicate Inv(s: State) {
    && |s.act| == |s.t| && s.init < |s.t|
    && TreeInv(s.t, s.init) && ForkInv(s.t, s.act) && WaitInv(s.t) && PidInv(s.t, s.nextpid, s.reaped)
  }

  lemma BootKeepsInv(n: nat, init: nat)
    requires init < n
    ensures Inv(Boot(n, init))
  {
  }

  /** u differs from t only in how live processes are scheduled, and no process starts to
      sleep in wait. */
  ghost predicate Rescheduled(t: Table, u: Table) {
    && |u| == |t|
    && (forall i :: 0 <= i < |t| ==> u[i].parent == t[i].parent && u[i].pid == t[i].pid)
    && (forall i :: 0 <= i < |t| ==> u[i].state == t[i].state || (Alive(t[i]) && Alive(u[i])))
    && (forall i :: 0 <= i < |t| && u[i].state == Sleeping && u[i].chan.OnProc? ==>
         u[i].chan == t[i].chan && t[i].state == Sleeping)
  }

  lemma RescheduledKeepsInv(s: State, u: Table)
    requires Inv(s) && Rescheduled(s.t, u)
    ensures Inv(s.(t := u))
  {
    var t := s.t;
    forall i | 0 <= i < |u| ensures GoodParent(u, i) && GoodEntry(u[i], i == s.init) {
      assert GoodParent(t, i) && GoodEntry(t[i], i == s.init);
    }
    forall c | 0 <= c < |u| && u[c].state == Zombie ensures !Waits(u, u[c].parent) {
      assert !Waits(t, t[c].parent);
    }
  }

  /** Replacing entry c by q keeps the tree when q is good itself and stays a possible
      parent if c was one. */
  lemma UpdateKeepsTree(t: Table, init: nat, c: nat, q: Proc)
    requires TreeInv(t, init) && c < |t|
    requires GoodEntry(q, c == init) && (Alive(t[c]) ==> Alive(q))
    requires q.parent == NULL || (0 <= q.parent < |t| && q.parent != c && Alive(t[q.parent]))
    ensures TreeInv(t[c := q], init)
  {
    var u := t[c := q];
    forall i | 0 <= i < |u| ensures GoodParent(u, i) && GoodEntry(u[i], i == init) {
      assert GoodParent(t, i) && GoodEntry(t[i], i == init);
    }
  }

  /** Replacing entry c by q, not a zombie, keeps WaitInv when q does not sleep in wait
      beside a zombie child. */
  lemma UpdateKeepsWait(t: Table, c: nat, q: Proc)
    requires WaitInv(t) && c < |t| && q.state != Zombie
    requires q.state == Sleeping && q.chan.OnProc? ==> q.chan == OnProc(c) && forall j :: !ZombieChild(t, c, j)
    ensures WaitInv(t[c := q])
  {
    var u := t[c := q];
    forall d | 0 <= d < |u| && u[d].state == Zombie ensures !Waits(u, u[d].parent) {
      assert !Waits(t, t[d].parent);
      assert t[d].parent == c ==> ZombieChild(t, c, d);
    }
  }

  lemma ForkAllocKeepsInv(s: State, p: nat, c: nat)
    requires Inv(s) && Enabled(s, ForkAlloc(p, c))
    ensures Inv(Next(s, ForkAlloc(p, c)))
  {
    var q := s.t[c].(state := Embryo, pid := s.nextpid);
    assert GoodEntry(s.t[c], c == s.init);
    UpdateKeepsTree(s.t, s.init, c, q);
    UpdateKeepsWait(s.t, c, q);
  }

  lemma ForkFailKeepsInv(s: State, p: nat)
    requires Inv(s) && Enabled(s, ForkFail(p))
    ensures Inv(Next(s, ForkFail(p)))
  {
    var c := s.act[p].child;
    var q := s.t[c].(state := Unused);
    assert GoodEntry(s.t[s.init], true);
    UpdateKeepsTree(s.t, s.init, c, q);
    UpdateKeepsWait(s.t, c, q);
  }

  lemma ForkParentKeepsInv(s: State, p: nat)
    requires Inv(s) && Enabled(s, ForkParent(p))
    ensures Inv(Next(s, ForkParent(p)))
  {
    var c := s.act[p].child;
    var q := s.t[c].(parent := p);
    assert GoodEntry(s.t[s.init], true);
    UpdateKeepsTree(s.t, s.init, c, q);
    UpdateKeepsWait(s.t, c, q);
  }

  lemma ForkDoneKeepsInv(s: State, p: nat)
    requires Inv(s) && Enabled(s, ForkDone(p))
    ensures Inv(Next(s, ForkDone(p)))
  {
    var c := s.act[p].child;
    var q := s.t[c].(state := Runnable);
    assert GoodEntry(s.t[s.init], true);
    UpdateKeepsTree(s.t, s.init, c, q);
    UpdateKeepsWait(s.t, c, q);
  }

  lemma ReapKeepsPids(t: Table, nextpid: int, reaped: seq<int>, c: nat)
    requires PidInv(t, nextpid, reaped) && c < |t| && t[c].state != Unused
    ensures PidInv(t[c := Reap(t[c])], nextpid, reaped + [t[c].pid])
  {
  }

  lemma ReapKeepsInv(s: State, p: nat, c: nat)
    requires Inv(s) && Enabled(s, DoWait(p, Reaped(c)))
    ensures Inv(Next(s, DoWait(p, Reaped(c))))
  {
    assert GoodEntry(s.t[s.init], true);
    ReapKeepsPids(s.t, s.nextpid, s.reaped, c);
    UpdateKeepsTree(s.t, s.init, c, Reap(s.t[c]));
    UpdateKeepsWait(s.t, c, Reap(s.t[c]));
  }

  /** wait sleeps only when its scan found no zombie child. */
  lemma WaitSleepKeepsInv(s: State, p: nat)
    requires Inv(s) && Enabled(s, DoWait(p, MustSleep))
    ensures Inv(Next(s, DoWait(p, MustSleep)))
  {
    var q := s.t[p].(chan := OnProc(p), state := Sleeping);
    assert GoodParent(s.t, p) && GoodEntry(s.t[p], p == s.init);
    UpdateKeepsTree(s.t, s.init, p, q);
    UpdateKeepsWait(s.t, p, q);
  }

  /** What exit leaves in an entry. */
  lemma ExitEntryFacts(t: Table, p: nat, init: nat, i: nat)
    requires p < |t| && i < |t| && init < |t|
    ensures var q, r := t[i], ExitAll(t, p, init)[i];
      && r.pid == q.pid && r.chan == q.chan
      && r.parent == (if q.parent == p then init else q.parent)
      && (i == p ==> r.state == Zombie)
      && (i != p ==> r.state == q.state || (q.state == Sleeping && r.state == Runnable))
  {
  }

  /** Who is still asleep in wait after exit: not the parent, nor init if it got a zombie. */
  lemma ExitWaits(t: Table, p: nat, init: nat, g: int)
    requires p < |t| && init < |t| && Waits(ExitAll(t, p, init), g)
    ensures g != p && Waits(t, g) && g != t[p].parent
    ensures g == init ==> forall j :: !ZombieChild(t, p, j)
  {
    ExitEntryFacts(t, p, init, g);
  }

  lemma ExitKeepsTree(t: Table, p: nat, init: nat)
    requires p < |t| && init < |t| && p != init && TreeInv(t, init) && Alive(t[p])
    ensures TreeInv(ExitAll(t, p, init), init)
  {
    var u := ExitAll(t, p, init);
    assert GoodEntry(t[init], true) && GoodEntry(t[p], false);
    forall i | 0 <= i < |u| ensures GoodParent(u, i) && GoodEntry(u[i], i == init) {
      assert GoodParent(t, i) && GoodEntry(t[i], i == init);
      ExitEntryFacts(t, p, init, i);
      ExitEntryFacts(t, p, init, init);
      if 0 <= t[i].parent { ExitEntryFacts(t, p, init, t[i].parent); }
    }
  }

  lemma ExitKeepsWait(t: Table, p: nat, init: nat)
    requires p < |t| && init < |t| && p != init && TreeInv(t, init) && WaitInv(t) && Alive(t[p])
    ensures WaitInv(ExitAll(t, p, init))
  {
    var u := ExitAll(t, p, init);
    forall c | 0 <= c < |u| && u[c].state == Zombie ensures !Waits(u, u[c].parent) {
      ExitEntryFacts(t, p, init, c);
      assert GoodParent(t, c);
      if Waits(u, u[c].parent) {
        ExitWaits(t, p, init, u[c].parent);
        if c != p && t[c].parent == p { assert ZombieChild(t, p, c); }
      }
    }
    forall i | 0 <= i < |u| && u[i].state == Sleeping && u[i].chan.OnProc? ensures u[i].chan == OnProc(i) {
      ExitEntryFacts(t, p, init, i);
    }
  }

  lemma ExitKeepsInv(s: State, p: nat)
    requires Inv(s) && Enabled(s, DoExit(p))
    ensures Inv(Next(s, DoExit(p)))
  {
    ExitKeepsTree(s.t, p, s.init);
    ExitKeepsWait(s.t, p, s.init);
    forall i: nat | i < |s.t|
      ensures var q, r := s.t[i], ExitAll(s.t, p, s.init)[i];
        && r.pid == q.pid
        && (r.state == Unused <==> q.state == Unused) && (r.state == Embryo <==> q.state == Embryo)
        && (q.parent != p ==> r.parent == q.parent)
        && (i != p && Alive(q) ==> Alive(r))
    {
      ExitEntryFacts(s.t, p, s.init, i);
    }
  }

  lemma SchedStep(s: State, st: Step)
    requires Enabled(s, st) && (st.Dispatch? || st.Yield? || st.Sleep? || st.Wakeup? || st.DoKill?)
    ensures Rescheduled(s.t, Next(s, st).t) && Next(s, st) == s.(t := Next(s, st).t)
  {
  }

  /** Scheduling steps. */
  lemma SchedKeepsInv(s: State, st: Step)
    requires Inv(s) && Enabled(s, st)
    requires st.Dispatch? || st.Yield? || st.Sleep? || st.Wakeup? || st.DoKill?
    ensures Inv(Next(s, st))
  {
    SchedStep(s, st);
    hide Inv, Enabled, Next, Rescheduled;
    RescheduledKeepsInv(s, Next(s, st).t);
  }

  lemma StepKeepsInv(s: State, st: Step)
    requires Inv(s) && Enabled(s, st)
    ensures Inv(Next(s, st))
  {
    match st
    case ForkAlloc(p, c) => ForkAllocKeepsInv(s, p, c);
    case ForkFail(p) => ForkFailKeepsInv(s, p);
    case ForkParent(p) => ForkParentKeepsInv(s, p);
    case ForkDone(p) => ForkDoneKeepsInv(s, p);
    case DoExit(p) => ExitKeepsInv(s, p);
    case DoWait(p, r) =>
      match r {
        case Reaped(c) => ReapKeepsInv(s, p, c);
        case NoChildren =>
        case MustSleep => WaitSleepKeepsInv(s, p);
      }
    case _ => SchedKeepsInv(s, st);
  }

  ghost predicate Run(s: State, steps: seq<Step>, u: State)
    decreases |steps|
  {
    if steps == [] then s == u
    else Enabled(s, steps[0]) && Run(Next(s, steps[0]), steps[1..], u)
  }

  lemma {:induction false} RunKeepsInv(s: State, steps: seq<Step>, u: State)
    requires Inv(s) && Run(s, steps, u)
    ensures Inv(u)
    decreases |steps|
  {
    if steps != [] {
      StepKeepsInv(s, steps[0]);
      RunKeepsInv(Next(s, steps[0]), steps[1..], u);
    }
  }

  /** In every run from boot: a parent is never free, half made or a zombie, every process
      but init has one, and whoever sleeps in wait has no zombie child. */
  lemma ProcessTree(n: nat, init: nat, steps: seq<Step>, u: State, i: nat)
    requires init < n && Run(Boot(n, init), steps, u) && i < |u.t|
    ensures u.t[i].parent != NULL ==> 0 <= u.t[i].parent < |u.t| && Alive(u.t[u.t[i].parent])
    ensures (Alive(u.t[i]) && i != u.init) || u.t[i].state == Zombie ==> u.t[i].parent != NULL
    ensures u.t[i].state == Zombie ==> !Waits(u.t, u.t[i].parent)
  {
    RunKeepsInv(Boot(n, init), steps, u);
    assert GoodParent(u.t, i) && GoodEntry(u.t[i], i == u.init);
  }

  /** In every run, no pid is returned twice by wait, and none of them is in use. */
  lemma ReapedOnce(n: nat, init: nat, steps: seq<Step>, u: State)
    requires init < n && Run(Boot(n, init), steps, u)
    ensures forall j, k :: 0 <= j < k < |u.reaped| ==> u.reaped[j] != u.reaped[k]
    ensures forall i :: 0 <= i < |u.t| && u.t[i].state != Unused ==> u.t[i].pid !in u.reaped
  {
    RunKeepsInv(Boot(n, init), steps, u);
  }

  /** In every run, the pid of a process leads kill to that process: no other entry, free or
      not, carries it. */
  lemma KillFinds(n: nat, init: nat, steps: seq<Step>, u: State, i: nat, j: nat)
    requires init < n && Run(Boot(n, init), steps, u) && i < |u.t| && j < |u.t|
    requires u.t[i].state != Unused && u.t[j].pid == u.t[i].pid
    ensures i == j
  {
    RunKeepsInv(Boot(n, init), steps, u);
  }

  // ----- the life of a process -----

  /** The changes of state there are. */
  predicate Moves(a: PState, b: PState) {
    match a
    case Unused => b == Embryo
    case Embryo => b == Runnable || b == Unused
    case Runnable => b == Running
    case Running => b == Runnable || b == Sleeping || b == Zombie
    case Sleeping => b == Runnable
    case Zombie => b == Unused
  }

  /** A step changes the state of an entry only along Moves, and which move it makes of whom. */
  lemma LifeCycle(s: State, st: Step, i: nat)
    requires Inv(s) && Enabled(s, st) && i < |s.t|
    ensures |Next(s, st).t| == |s.t|
    ensures var a, b := s.t[i].state, Next(s, st).t[i].state;
      && (a == b || Moves(a, b))
      && (a == Unused && b == Embryo <==> st.ForkAlloc? && st.c == i)
      && (a == Embryo && b == Runnable <==> st.ForkDone? && s.act[st.p].child == i)
      && (a == Embryo && b == Unused <==> st.ForkFail? && s.act[st.p].child == i)
      && (a == Runnable && b == Running <==> st.Dispatch? && st.p == i)
      && (a == Running && b == Runnable <==> st.Yield? && st.p == i)
      && (a == Running && b == Sleeping <==> (st.Sleep? || (st.DoWait? && st.r.MustSleep?)) && st.p == i)
      && (a == Running && b == Zombie <==> st.DoExit? && st.p == i)
      && (a == Zombie && b == Unused <==> st.DoWait? && st.r.Reaped? && st.r.child == i)
      && (st.Wakeup? && a == Sleeping ==> (b == Runnable <==> s.t[i].chan == OnAddr(st.a)))
      && (st.Sleep? && st.p == i ==> Next(s, st).t[i].chan == OnAddr(st.a))
      && (st.ForkAlloc? && st.c == i ==> Next(s, st).t[i].pid == s.nextpid < Next(s, st).nextpid)
      && (st.ForkParent? && s.act[st.p].child == i ==> Next(s, st).t[i].parent == st.p)
      && (st.Dispatch? && st.p == i ==> Next(s, st).t[i].chan == NoChan)
  {
    hide ExitAll, TreeInv, WaitInv, PidInv;
    if st.DoExit? {
      ExitSays(s.t, st.p, s.init, i);
    }
  }

  // ----- who is killed -----

  /** kill does not test the state, so a pid that no process has may mark a free entry: in every run it does exactly
      then. */
  lemma KillHitsFree(n: nat, init: nat, steps: seq<Step>, u: State, i: nat)
    requires init < n && Run(Boot(n, init), steps, u) && KillHits(u.t, i)
    ensures u.t[i].state == Unused <==>
      forall j :: 0 <= j < |u.t| && u.t[j].state != Unused ==> u.t[j].pid != u.t[i].pid
  {
    forall j: nat | j < |u.t| && u.t[j].state != Unused && u.t[j].pid == u.t[i].pid ensures j == i {
      KillFinds(n, init, steps, u, j, i);
    }
  }

  /** The last kill or reap that hit entry c was a kill; before says how it was without any. */
  ghost predicate Marked(steps: seq<Step>, c: nat, before: bool)
    decreases |steps|
  {
    if steps == [] then before
    else Marked(steps[1..], c, MarkedBy(steps[0], c, before))
  }
  predicate MarkedBy(st: Step, c: nat, before: bool) {
    match st
    case DoKill(i) => i == c || before
    case DoWait(p, Reaped(x)) => x != c && before
    case _ => before
  }

  lemma KilledStep(s: State, st: Step, c: nat)
    requires Enabled(s, st) && c < |s.t|
    ensures |Next(s, st).t| == |s.t| && Next(s, st).t[c].killed == MarkedBy(st, c, s.t[c].killed)
  {
  }

  lemma {:induction false} KilledRun(s: State, steps: seq<Step>, u: State, c: nat)
    requires Run(s, steps, u) && c < |s.t|
    ensures |u.t| == |s.t| && (u.t[c].killed <==> Marked(steps, c, s.t[c].killed))
    decreases |steps|
  {
    if steps != [] {
      KilledStep(s, steps[0], c);
      KilledRun(Next(s, steps[0]), steps[1..], u, c);
    }
  }

  /** allocproc does not clear killed: a child is born killed exactly if the last kill or reap that hit its entry,
      which was free or belonged to a fork that failed, was a kill. */
  lemma BornKilledIff(n: nat, init: nat, steps: seq<Step>, u: State, p: nat, c: nat)
    requires init < n && Run(Boot(n, init), steps, u) && Enabled(u, ForkAlloc(p, c))
    ensures Next(u, ForkAlloc(p, c)).t[c].killed <==> Marked(steps, c, false)
  {
    KilledRun(Boot(n, init), steps, u, init);
    KilledRun(Boot(n, init), steps, u, c);
  }

  lemma RunCons(s: State, st: Step, steps: seq<Step>, u: State)
    requires Enabled(s, st) && Run(Next(s, st), steps, u)
    ensures Run(s, [st] + steps, u)
  {
    assert ([st] + steps)[1..] == steps;
  }

  /** kill(0), and the first fork of init gives a killed child that no kill was meant for. */
  lemma BornKilled(n: nat) returns (steps: seq<Step>, u: State)
    requires n >= 2
    ensures Run(Boot(n, 0), steps, u) && |u.t| == n
    ensures u.t[1].state == Runnable && u.t[1].killed && u.t[1].pid == 2
    ensures forall i :: 0 <= i < |steps| && steps[i].DoKill? ==> i == 0 && steps[i] == DoKill(1)
    ensures Boot(n, 0).t[1].state == Unused
  {
    hide Run, ExitAll, WakeAll, AfterWait, WaitPass;
    var s0 := Boot(n, 0);
    var s1 := Next(s0, DoKill(1));
    var s2 := Next(s1, Dispatch(0));
    var s3 := Next(s2, ForkAlloc(0, 1));
    var s4 := Next(s3, ForkParent(0));
    u := Next(s4, ForkDone(0));
    hide Boot;
    RunNone(u);
    assert [ForkDone(0)] + [] == [ForkDone(0)];
    RunCons(s4, ForkDone(0), [], u);
    RunCons(s3, ForkParent(0), [ForkDone(0)], u);
    RunCons(s2, ForkAlloc(0, 1), [ForkParent(0), ForkDone(0)], u);
    RunCons(s1, Dispatch(0), [ForkAlloc(0, 1), ForkParent(0), ForkDone(0)], u);
    steps := [Dispatch(0), ForkAlloc(0, 1), ForkParent(0), ForkDone(0)];
    RunCons(s0, DoKill(1), steps, u);
    steps := [DoKill(1)] + steps;
  }

  lemma RunNone(u: State)
    ensures Run(u, [], u)
  {
  }
}
