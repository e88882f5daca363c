/** Sleep locks (sleeplock.c) over sleep/wakeup (proc.c) and spin locks (spinlock.c), as
    interleaved steps of any number of processes that use one sleep lock.

    Every acquire, release, test and store of the source is a step of its own.  A spin
    lock is free or held by one process: acquire is a step that waits for it to be free. */
module SleepLock {

  /** Where a process is.  The comments name the spin locks it holds: L is the sleep lock's
      inner lock lk->lk, P is ptable.lock. */
  datatype PC =
    | Idle
    | Other           // P      some other kernel code under ptable.lock
    | WantLk          //        acquiresleep: acquire(&lk->lk)
    | Test            // L      while(lk->locked)
    | AcqRel          // L      locked and pid are set; release(&lk->lk)
    | Holding         //        acquiresleep returned
    | SleepPt         // L      sleep: acquire(&ptable.lock)
    | SleepRel        // L, P   sleep: release(lk)
    | SleepMark       // P      sleep: p->chan = chan, p->state = SLEEPING
    | Marked          // P      sleep: sched(), which gives up ptable.lock
    | Asleep          //        SLEEPING on lk
    | Woken           //        RUNNABLE, the scheduler takes ptable.lock for it
    | Tidy            // P      sleep: p->chan = 0, release(&ptable.lock)
    | WantRel         //        releasesleep: acquire(&lk->lk)
    | RelSet          // L      lk->locked = 0, lk->pid = 0
    | RelWake         // L      wakeup: acquire(&ptable.lock)
    | RelScan         // L, P   wakeup1(lk)
    | RelPt           // L, P   wakeup: release(&ptable.lock)
    | RelDone         // L      release(&lk->lk)

  datatype Option<T> = None | Some(value: T)

  datatype State = State(locked: bool, pid: int, spin: Option<nat>, ptable: Option<nat>, pc: seq<PC>)

  predicate HoldsSpin(c: PC) {
    c.Test? || c.AcqRel? || c.SleepPt? || c.SleepRel? || c.RelSet? || c.RelWake? || c.RelScan? || c.RelPt? || c.RelDone?
  }
  predicate HoldsPtable(c: PC) {
    c.Other? || c.SleepRel? || c.SleepMark? || c.Marked? || c.Tidy? || c.RelScan? || c.RelPt?
  }
  /** Owner of the sleep lock. */
  predicate Owns(c: PC) {
    c.AcqRel? || c.Holding? || c.WantRel? || c.RelSet?
  }
  /** Asleep on the lock, or past the test on the way to sleep. */
  predicate Sleeps(c: PC) {
    c.SleepPt? || c.SleepRel? || c.SleepMark? || c.Marked? || c.Asleep?
  }
  /** The lock has been given up and the wakeup is still to come; holds L. */
  predicate WillWake(c: PC) {
    c.RelWake? || c.RelScan?
  }

  datatype Step =
    | Go(p: nat)               // the next step of process p
    | Grab(p: nat)             // an idle process enters other ptable.lock code
    | Kill(p: nat, q: nat)     // p, holding ptable.lock, makes sleeping q runnable

  function Init(n: nat): (s: State) {
    State(false, 0, None, None, seq(n, i => Idle))
  }

  predicate Enabled(s: State, st: Step) {
    && st.p < |s.pc|
    && match st
       case Go(p) =>
         (match s.pc[p]
          case WantLk | WantRel => s.spin == None
          case SleepPt | Woken | RelWake => s.ptable == None
          case Asleep => false
          case _ => true)
       case Grab(p) => s.pc[p] == Idle && s.ptable == None
       case Kill(p, q) => s.pc[p] == Other && q < |s.pc| && s.pc[q] == Asleep
  }

  /** wakeup1(lk): every sleeper on lk becomes runnable. */
  function Wakeup(pc: seq<PC>): (r: seq<PC>) {
    seq(|pc|, i requires 0 <= i < |pc| => if pc[i] == Asleep then Woken else pc[i])
  }

  function Next(s: State, st: Step): (t: State)
    requires Enabled(s, st)
  {
    match st
    case Grab(p) => s.(ptable := Some(p), pc := s.pc[p := Other])
    case Kill(_, q) => s.(pc := s.pc[q := Woken])
    case Go(p) =>
      match s.pc[p]
      case Idle => s.(pc := s.pc[p := WantLk])
      case Other => s.(ptable := None, pc := s.pc[p := Idle])
      case WantLk => s.(spin := Some(p), pc := s.pc[p := Test])
      case Test => if s.locked then s.(pc := s.pc[p := SleepPt])
                   else s.(locked := true, pid := p, pc := s.pc[p := AcqRel])
      case AcqRel => s.(spin := None, pc := s.pc[p := Holding])
      case Holding => s.(pc := s.pc[p := WantRel])
      case SleepPt => s.(ptable := Some(p), pc := s.pc[p := SleepRel])
      case SleepRel => s.(spin := None, pc := s.pc[p := SleepMark])
      case SleepMark => s.(pc := s.pc[p := Marked])
      case Marked => s.(ptable := None, pc := s.pc[p := Asleep])
      case Asleep => s
      case Woken => s.(ptable := Some(p), pc := s.pc[p := Tidy])
      case Tidy => s.(ptable := None, pc := s.pc[p := WantLk])
      case WantRel => s.(spin := Some(p), pc := s.pc[p := RelSet])
      case RelSet => s.(locked := false, pid := 0, pc := s.pc[p := RelWake])
      case RelWake => s.(ptable := Some(p), pc := s.pc[p := RelScan])
      case RelScan => s.(pc := Wakeup(s.pc)[p := RelPt])
      case RelPt => s.(ptable := None, pc := s.pc[p := RelDone])
      case RelDone => s.(spin := None, pc := s.pc[p := Idle])
  }

  ghost predicate Run(s: State, steps: seq<Step>, t: State)
    decreases |steps|
  {
    if steps == [] then s == t
    else Enabled(s, steps[0]) && Run(Next(s, steps[0]), steps[1..], t)
  }

  /** A spin-lock word names exactly its holder. */
  ghost predicate SpinInv(s: State) {
    && (forall p :: 0 <= p < |s.pc| ==> (HoldsSpin(s.pc[p]) <==> s.spin == Some(p)))
    && (s.spin.Some? ==> s.spin.value < |s.pc|)
  }
  ghost predicate PtableInv(s: State) {
    && (forall p :: 0 <= p < |s.pc| ==> (HoldsPtable(s.pc[p]) <==> s.ptable == Some(p)))
    && (s.ptable.Some? ==> s.ptable.value < |s.pc|)
  }

  /** locked and pid name exactly the owner. */
  ghost predicate OwnerInv(s: State) {
    && (forall p :: 0 <= p < |s.pc| ==> (Owns(s.pc[p]) <==> s.locked && s.pid == p))
    && (s.locked ==> 0 <= s.pid < |s.pc|)
  }

  /** Somebody will wake the sleepers: the owner, or a releaser before its wakeup. */
  ghost predicate WakerInv(s: State) {
    forall p :: 0 <= p < |s.pc| && Sleeps(s.pc[p]) ==>
      s.locked || (s.spin.Some? && s.spin.value < |s.pc| && WillWake(s.pc[s.spin.value]))
  }

  ghost predicate Inv(s: State) {
    SpinInv(s) && PtableInv(s) && OwnerInv(s) && WakerInv(s)
  }

  lemma StepKeepsSpin(s: State, st: Step)
    requires SpinInv(s) && Enabled(s, st)
    ensures SpinInv(Next(s, st))
  {
  }

  lemma StepKeepsPtable(s: State, st: Step)
    requires PtableInv(s) && Enabled(s, st)
    ensures PtableInv(Next(s, st))
  {
  }

  lemma StepKeepsOwner(s: State, st: Step)
    requires SpinInv(s) && OwnerInv(s) && Enabled(s, st)
    ensures OwnerInv(Next(s, st))
  {
  }

  lemma StepKeepsWaker(s: State, st: Step)
    requires Inv(s) && Enabled(s, st)
    ensures WakerInv(Next(s, st))
  {
  }

  lemma {:induction false} RunKeepsInv(s: State, steps: seq<Step>, t: State)
    requires Inv(s) && Run(s, steps, t)
    ensures Inv(t)
    decreases |steps|
  {
    if steps != [] {
      StepKeepsSpin(s, steps[0]);
      StepKeepsPtable(s, steps[0]);
      StepKeepsOwner(s, steps[0]);
      StepKeepsWaker(s, steps[0]);
      RunKeepsInv(Next(s, steps[0]), steps[1..], t);
    }
  }

  /** In every run of any number of processes, at most one process owns the sleep lock, and
      lk->locked with lk->pid (what holdingsleep tests) names exactly that process. */
  lemma MutualExclusion(n: nat, steps: seq<Step>, t: State, p: nat, q: nat)
    requires Run(Init(n), steps, t) && p < |t.pc| && q < |t.pc|
    ensures Owns(t.pc[p]) && Owns(t.pc[q]) ==> p == q
    ensures Owns(t.pc[p]) <==> t.locked && t.pid == p
  {
    RunKeepsInv(Init(n), steps, t);
  }

  /** In every run, a process is asleep on a free lock only while a releaser holds the
      inner spin lock with its wakeup still ahead: no wakeup is lost. */
  lemma NoLostWakeup(n: nat, steps: seq<Step>, t: State, p: nat)
    requires Run(Init(n), steps, t) && p < |t.pc| && t.pc[p] == Asleep && !t.locked
    ensures t.spin.Some? && t.spin.value < |t.pc| && WillWake(t.pc[t.spin.value])
  {
    RunKeepsInv(Init(n), steps, t);
  }

  /** A process in the middle of acquiring or releasing. */
  predicate Busy(c: PC) {
    !c.Idle? && !c.Holding? && !c.Asleep?
  }

  /** The two spin locks are always taken in the same order, so some busy process can
      always move: the protocol never deadlocks. */
  lemma NoDeadlock(n: nat, steps: seq<Step>, t: State, p: nat)
    requires Run(Init(n), steps, t) && p < |t.pc| && Busy(t.pc[p])
    ensures exists q :: 0 <= q < |t.pc| && Busy(t.pc[q]) && Enabled(t, Go(q))
  {
    RunKeepsInv(Init(n), steps, t);
    if t.ptable.Some? {
      assert HoldsPtable(t.pc[t.ptable.value]);
      assert Enabled(t, Go(t.ptable.value));
    } else if t.spin.Some? {
      assert HoldsSpin(t.pc[t.spin.value]);
      assert Enabled(t, Go(t.spin.value));
    } else {
      assert Enabled(t, Go(p));
    }
  }
}
