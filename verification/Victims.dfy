/** What the swapper chooses (findproc, findpage and swapout of pageswap.c): which process, which of its pages, and
    how many. */
module Victims {
  import opened Paging
  import opened PageSteps

  /** A page findpage may choose. */
  predicate Evictable(e: nat) { Present(e) && User(e) }
  predicate Idle(e: nat) { Evictable(e) && !Accessed(e) }

  ghost predicate LowestIdle(tabs: Tables, d: nat, v: nat) {
    && TabsShaped(tabs) && d < NFRAMES && v < UPAGES && Idle(Pte(tabs, d, v))
    && forall u :: 0 <= u < v ==> !Idle(Pte(tabs, d, u))
  }

  ghost predicate NoneIdle(tabs: Tables, d: nat) {
    TabsShaped(tabs) && d < NFRAMES && forall u :: 0 <= u < UPAGES ==> !Idle(Pte(tabs, d, u))
  }

  ghost predicate NoneEvictable(tabs: Tables, d: nat) {
    TabsShaped(tabs) && d < NFRAMES && forall u :: 0 <= u < UPAGES ==> !Evictable(Pte(tabs, d, u))
  }

  /** tabs' is tabs with Accessed cleared on the evictable pages of d below n. */
  ghost predicate AccessCleared(tabs: Tables, tabs': Tables, d: nat, n: nat) {
    && TabsShaped(tabs) && TabsShaped(tabs') && d < NFRAMES
    && forall u :: 0 <= u < UPAGES ==>
         var e := Pte(tabs, d, u);
         Pte(tabs', d, u) == if u < n && Evictable(e) then ClearAccessed(e) else e
  }

  /** With every Accessed bit cleared, a page is idle exactly when it could be evicted before. */
  lemma ClearedIdle(tabs: Tables, tabs': Tables, d: nat)
    requires AccessCleared(tabs, tabs', d, UPAGES)
    ensures forall u :: 0 <= u < UPAGES ==> (Idle(Pte(tabs', d, u)) <==> Evictable(Pte(tabs, d, u)))
    ensures NoneIdle(tabs', d) ==> NoneEvictable(tabs, d) && NoneEvictable(tabs', d)
  {
    forall u | 0 <= u < UPAGES
      ensures (Idle(Pte(tabs', d, u)) <==> Evictable(Pte(tabs, d, u)))
      ensures (Evictable(Pte(tabs', d, u)) ==> Evictable(Pte(tabs, d, u)))
    {
      ClearAccessedFacts(Pte(tabs, d, u));
    }
  }

  lemma ClearedNext(tabs: Tables, tabs': Tables, tabs'': Tables, d: nat, v: nat)
    requires v < UPAGES && AccessCleared(tabs, tabs', d, v) && TabsShaped(tabs'')
    requires forall u :: 0 <= u < UPAGES ==>
      var e := Pte(tabs', d, u);
      Pte(tabs'', d, u) == if u == v && Evictable(e) then ClearAccessed(e) else e
    ensures AccessCleared(tabs, tabs'', d, v + 1)
  {
    hide Pte, ClearAccessed, Evictable;
  }

  lemma PteHas(tabs: Tables, d: nat, v: nat)
    requires TabsShaped(tabs) && d < NFRAMES && v < VPAGES && Present(Pte(tabs, d, v))
    ensures HasTable(tabs, d, v / NENTRIES)
  {
  }

  // The order in which pages leave: idle ones first, then the others, each by address.

  predicate Sooner(idle: set<nat>, u: nat, v: nat) {
    (u in idle && v !in idle) || ((u in idle <==> v in idle) && u < v)
  }

  /** How many of the pages go before v. */
  ghost function Rank(pages: set<nat>, idle: set<nat>, v: nat): nat {
    |set u | u in pages && Sooner(idle, u, v)|
  }

  /** Whoever goes before a page of gone is in gone. */
  ghost predicate First(pages: set<nat>, idle: set<nat>, gone: set<nat>) {
    gone <= pages && forall u, v :: v in gone && u in pages && Sooner(idle, u, v) ==> u in gone
  }

  lemma FirstWithin(pages: set<nat>, idle: set<nat>, gone: set<nat>)
    requires First(pages, idle, gone)
    ensures gone <= pages && |gone| <= |pages|
  {
    Subset(gone, pages);
  }

  /** The first k pages in order are those of rank below k. */
  lemma FirstRank(pages: set<nat>, idle: set<nat>, gone: set<nat>, v: nat)
    requires First(pages, idle, gone) && v in pages
    ensures v in gone <==> Rank(pages, idle, v) < |gone|
  {
    var before := set u | u in pages && Sooner(idle, u, v);
    if v in gone {
      assert before <= gone - {v};
      Subset(before, gone - {v});
    } else {
      forall u | u in gone ensures u in before {
        assert Sooner(idle, u, v) || Sooner(idle, v, u) || u == v;
      }
      Subset(gone, before);
    }
  }

  lemma {:induction false} Subset(a: set<nat>, b: set<nat>)
    requires a <= b
    ensures |a| <= |b|
    decreases |a|
  {
    if a != {} {
      var x :| x in a;
      Subset(a - {x}, b - {x});
    }
  }

  ghost predicate Lowest(s: set<nat>, v: nat) { v in s && forall u :: u in s ==> v <= u }

  /** Taking the lowest idle page, and treating all as idle once none is, follows the order. */
  lemma FirstNext(pages: set<nat>, idle: set<nat>, gone: set<nat>, now: set<nat>, later: set<nat>, v: nat)
    requires First(pages, idle, gone) && idle <= pages && Lowest(later, v)
    requires now == idle - gone || (idle <= gone && now == pages - gone)
    requires later == now || (now == {} && later == pages - gone)
    ensures v !in gone && First(pages, idle, gone + {v})
    ensures later - {v} == idle - (gone + {v}) || (idle <= gone + {v} && later - {v} == pages - (gone + {v}))
  {
    if later == idle - gone {
      forall u | u in pages && Sooner(idle, u, v) ensures u in gone {
        assert u in gone || u in later;
      }
    } else {
      forall u | u in idle ensures u in gone {
        assert u in gone || u in idle - gone;
      }
      assert later == pages - gone;
      forall u | u in pages && Sooner(idle, u, v) ensures u in gone {
        assert u in gone || u in later;
      }
    }
  }

  // The same on page tables.

  ghost function Evictables(tabs: Tables, d: nat): set<nat>
    requires TabsShaped(tabs) && d < NFRAMES
  {
    set u: nat | u < UPAGES && Evictable(Pte(tabs, d, u))
  }

  ghost function Idles(tabs: Tables, d: nat): set<nat>
    requires TabsShaped(tabs) && d < NFRAMES
  {
    set u: nat | u < UPAGES && Idle(Pte(tabs, d, u))
  }

  ghost function FreeSlots(slots: seq<Slot>): set<nat> { set s: nat | s < |slots| && slots[s].isFree }

  function Min(a: nat, b: nat): nat { if a < b then a else b }

  /** How many pages of d a swapout moves: npages, unless it runs out of pages or slots. */
  ghost function Batch(m: M, d: nat): nat
    requires TabsShaped(m.tabs) && d < NFRAMES
  {
    Min(m.npages, Min(|Evictables(m.tabs, d)|, |FreeSlots(m.slots)|))
  }

  /** Page u of d is among the first k to leave. */
  ghost predicate Leaver(tabs: Tables, d: nat, u: nat, k: nat)
    requires TabsShaped(tabs) && d < NFRAMES && u < UPAGES
  {
    Evictable(Pte(tabs, d, u)) && Rank(Evictables(tabs, d), Idles(tabs, d), u) < k
  }

  ghost function Leavers(tabs: Tables, d: nat, k: nat): set<nat>
    requires TabsShaped(tabs) && d < NFRAMES
  {
    set u: nat | u < UPAGES && Leaver(tabs, d, u, k)
  }

  /** tabs is tabs0 after the pages in gone left d. */
  ghost predicate Evicting(tabs0: Tables, tabs: Tables, d: nat, gone: set<nat>) {
    && TabsShaped(tabs0) && TabsShaped(tabs) && d < NFRAMES
    && var pages, idle := Evictables(tabs0, d), Idles(tabs0, d);
    && First(pages, idle, gone) && Evictables(tabs, d) == pages - gone
    && (Idles(tabs, d) == idle - gone || (idle <= gone && Idles(tabs, d) == pages - gone))
    && forall u :: 0 <= u < UPAGES ==> (Present(Pte(tabs, d, u)) <==> Present(Pte(tabs0, d, u)) && u !in gone)
  }

  lemma EvictingNone(tabs: Tables, d: nat)
    requires TabsShaped(tabs) && d < NFRAMES
    ensures Evicting(tabs, tabs, d, {})
  {
    hide Pte;
  }

  /** The pages that left are exactly the first in order. */
  lemma EvictingLeavers(tabs0: Tables, tabs: Tables, d: nat, gone: set<nat>)
    requires Evicting(tabs0, tabs, d, gone)
    ensures gone == Leavers(tabs0, d, |gone|)
  {
    hide Pte, Rank, First;
    FirstWithin(Evictables(tabs0, d), Idles(tabs0, d), gone);
    forall u: nat | u < UPAGES ensures u in gone <==> Leaver(tabs0, d, u, |gone|) {
      if u in Evictables(tabs0, d) {
        FirstRank(Evictables(tabs0, d), Idles(tabs0, d), gone, u);
      }
    }
  }

  /** What findpage does to the entries of d: nothing, or clear Accessed everywhere because no page was idle. */
  ghost predicate Picked(tabs: Tables, tabs': Tables, d: nat) {
    && TabsShaped(tabs) && TabsShaped(tabs') && d < NFRAMES
    && (tabs' == tabs || (NoneIdle(tabs, d) && AccessCleared(tabs, tabs', d, UPAGES)))
  }

  /**
   * On the bits: findpage takes the first page that is present, for users and not accessed.
   * It clears the Accessed bits of the present user pages, and only when all of them have it.
   */
  lemma PickedBits(tabs: Tables, tabs': Tables, d: nat, v: nat)
    requires Picked(tabs, tabs', d) && LowestIdle(tabs', d, v)
    ensures var e := Pte(tabs', d, v); e % 2 == 1 && e % 8 >= 4 && e % 64 < 32
    ensures forall u :: 0 <= u < v ==> var e := Pte(tabs', d, u); e % 2 == 1 && e % 8 >= 4 ==> e % 64 >= 32
    ensures (exists u :: 0 <= u < UPAGES && BitsIdle(Pte(tabs, d, u))) ==> tabs' == tabs
    ensures (forall u :: 0 <= u < UPAGES ==> !BitsIdle(Pte(tabs, d, u))) ==>
      forall u :: 0 <= u < UPAGES ==> var e := Pte(tabs, d, u);
        Pte(tabs', d, u) == if e % 2 == 1 && e % 8 >= 4 then e - 32 else e
  {
    if forall u :: 0 <= u < UPAGES ==> !BitsIdle(Pte(tabs, d, u)) {
      assert !Idle(Pte(tabs, d, v));
    }
  }

  predicate BitsIdle(e: nat) { e % 2 == 1 && e % 8 >= 4 && e % 64 < 32 }

  lemma PickedSets(tabs: Tables, tabs': Tables, d: nat)
    requires Picked(tabs, tabs', d)
    ensures TabsShaped(tabs) && TabsShaped(tabs') && d < NFRAMES
    ensures Evictables(tabs', d) == Evictables(tabs, d)
    ensures Idles(tabs', d) == Idles(tabs, d) || (Idles(tabs, d) == {} && Idles(tabs', d) == Evictables(tabs, d))
    ensures forall u :: 0 <= u < UPAGES ==> (Present(Pte(tabs', d, u)) <==> Present(Pte(tabs, d, u)))
  {
    hide Pte;
    if tabs' != tabs {
      forall u: nat | u < UPAGES
        ensures Evictable(Pte(tabs', d, u)) == Evictable(Pte(tabs, d, u))
        ensures Idle(Pte(tabs', d, u)) == Evictable(Pte(tabs, d, u))
        ensures Present(Pte(tabs', d, u)) <==> Present(Pte(tabs, d, u))
      {
        ClearAccessedFacts(Pte(tabs, d, u));
        hide ClearAccessed;
      }
      assert Idles(tabs, d) == {};
    }
  }

  /** findpage found nothing or no slot was free: nobody left. */
  lemma EvictingPicked(tabs0: Tables, tabs: Tables, tabs': Tables, d: nat, gone: set<nat>)
    requires Evicting(tabs0, tabs, d, gone) && Picked(tabs, tabs', d)
    ensures Evicting(tabs0, tabs', d, gone)
  {
    hide Pte, Picked, First;
    PickedSets(tabs, tabs', d);
    var pages, idle := Evictables(tabs0, d), Idles(tabs0, d);
    if Idles(tabs', d) != Idles(tabs, d) {
      assert Idles(tabs', d) == pages - gone;
      forall u | u in idle ensures u in gone {
        assert u in gone || u in idle - gone;
      }
    }
  }

  /** Page v left: the entries of the others did not change. */
  ghost predicate Departed(tabs: Tables, tabs': Tables, d: nat, v: nat) {
    && TabsShaped(tabs) && TabsShaped(tabs') && d < NFRAMES && v < UPAGES && !Present(Pte(tabs', d, v))
    && forall u :: 0 <= u < UPAGES && u != v ==> Pte(tabs', d, u) == Pte(tabs, d, u)
  }

  lemma EvictingTurn(tabs0: Tables, tabs: Tables, tabs1: Tables, tabs2: Tables, d: nat, gone: set<nat>, v: nat)
    requires Evicting(tabs0, tabs, d, gone) && Picked(tabs, tabs1, d) && LowestIdle(tabs1, d, v)
    requires Departed(tabs1, tabs2, d, v)
    ensures v !in gone && Evicting(tabs0, tabs2, d, gone + {v})
  {
    hide Pte, Picked, First, Sooner;
    PickedSets(tabs, tabs1, d);
    assert Idles(tabs0, d) <= Evictables(tabs0, d);
    assert Lowest(Idles(tabs1, d), v);
    FirstNext(Evictables(tabs0, d), Idles(tabs0, d), gone, Idles(tabs, d), Idles(tabs1, d), v);
    assert Evictables(tabs2, d) == Evictables(tabs1, d) - {v};
    assert Idles(tabs2, d) == Idles(tabs1, d) - {v};
  }

  lemma IdleFrame(tabs: Tables, d: nat, v: nat)
    requires LowestIdle(tabs, d, v)
    ensures TabsShaped(tabs) && d < NFRAMES && v < UPAGES && Present(Pte(tabs, d, v)) && User(Pte(tabs, d, v))
  {
  }

  /** findpage has just looked through d: if any page can go, some page is idle. */
  ghost predicate Searched(tabs: Tables, d: nat) {
    TabsShaped(tabs) && d < NFRAMES && (Idles(tabs, d) == {} ==> Evictables(tabs, d) == {})
  }

  lemma SearchedFound(tabs: Tables, d: nat, v: nat)
    requires LowestIdle(tabs, d, v)
    ensures Searched(tabs, d)
  {
    assert v in Idles(tabs, d);
  }

  lemma SearchedNone(tabs: Tables, d: nat)
    requires NoneEvictable(tabs, d)
    ensures Searched(tabs, d)
  {
    hide Pte;
  }

  // Which process.

  /** The process the victim search prefers: more resident pages, then the lower pid. rss is compared unsigned. */
  predicate Prefers(p: Proc, q: Proc) { p.rss > q.rss || (p.rss == q.rss && p.pid <= q.pid) }

  /** v is the choice of the search: the first in the table among equals. */
  ghost predicate IsVictim(procs: seq<Proc>, v: nat) {
    && v < |procs| && Candidate(procs[v])
    && (forall p :: 0 <= p < |procs| && Candidate(procs[p]) ==> Prefers(procs[v], procs[p]))
    && (forall p :: 0 <= p < v && Candidate(procs[p]) ==> !Prefers(procs[p], procs[v]))
  }

  lemma OneVictim(procs: seq<Proc>, v: nat, w: nat)
    requires IsVictim(procs, v) && IsVictim(procs, w)
    ensures v == w
  {
  }

  ghost predicate NoVictim(procs: seq<Proc>) { forall p :: 0 <= p < |procs| ==> !Candidate(procs[p]) }

  ghost predicate NoSlot(m: M) { |m.slots| == NSLOTS && forall s :: 0 <= s < NSLOTS ==> !m.slots[s].isFree }

  /** Nothing of directory d can be evicted. */
  ghost predicate Drained(m: M, d: nat) { NoneEvictable(m.tabs, d) || NoSlot(m) }

  lemma DrainedBatch(m: M, d: nat)
    requires TabsShaped(m.tabs) && d < NFRAMES && |m.slots| == NSLOTS && m.npages >= 1
    ensures Batch(m, d) == 0 <==> Drained(m, d)
  {
    hide Pte;
    if Evictables(m.tabs, d) == {} {
      forall u | 0 <= u < UPAGES ensures !Evictable(Pte(m.tabs, d, u)) {
        assert u !in Evictables(m.tabs, d);
      }
    } else {
      var u :| u in Evictables(m.tabs, d);
    }
    if FreeSlots(m.slots) == {} {
      forall s | 0 <= s < NSLOTS ensures !m.slots[s].isFree {
        assert s !in FreeSlots(m.slots);
      }
    } else {
      var s :| s in FreeSlots(m.slots);
    }
  }

  /** Nothing can be evicted at all: no victim, or a victim that is drained. */
  ghost predicate Stuck(m: M) {
    NoVictim(m.procs) || exists v: nat :: IsVictim(m.procs, v) && Drained(m, m.procs[v].pgdir)
  }

  /** What a swapout with victim v did: Batch pages of the victim left, the first in order, and no other directory
      changed. If it fell short of npages, its last search for a page found none or one it could not move. */
  ghost predicate Swapped(m0: M, g0: G, m: M, g: G, v: nat) {
    && v < |m0.procs| && m0.procs[v].pgdir < NFRAMES && TabsShaped(m0.tabs)
    && var d := m0.procs[v].pgdir;
    && var k := Batch(m0, d);
    && |g.free| == |g0.free| + k && m.procs == Less(m0.procs, v, k) && CalmBut(m0, g0, m, d)
    && |FreeSlots(m.slots)| == |FreeSlots(m0.slots)| - k && Evicting(m0.tabs, m.tabs, d, Leavers(m0.tabs, d, k))
    && (k < m0.npages ==> Searched(m.tabs, d))
  }

  ghost predicate SwapDone(m0: M, g0: G, m: M, g: G) {
    && (NoVictim(m0.procs) ==> g == g0 && m == m0.(threshold := m.threshold, npages := m.npages))
    && (NoVictim(m0.procs) || exists v: nat :: IsVictim(m0.procs, v))
    && (forall v: nat :: IsVictim(m0.procs, v) ==> Swapped(m0, g0, m, g, v))
  }

  lemma SwapDonePolicy(m0: M, g0: G, m1: M, g: G, m: M)
    requires SwapDone(m0, g0, m1, g) && m == m1.(threshold := m.threshold, npages := m.npages)
    ensures SwapDone(m0, g0, m, g)
  {
    hide NoVictim, IsVictim, Batch, Evicting, Leavers, Less;
    forall v: nat | IsVictim(m0.procs, v) ensures Swapped(m0, g0, m, g, v) {
      assert Swapped(m0, g0, m1, g, v);
    }
  }

  // A kalloc that finds the free list empty.

  /** A swapout would take page u of x: x is the victim's and u is among its first Batch pages. */
  ghost predicate Doomed(m: M, x: nat, u: nat) {
    && TabsShaped(m.tabs) && x < NFRAMES && u < UPAGES
    && exists v: nat :: IsVictim(m.procs, v) && m.procs[v].pgdir == x && Leaver(m.tabs, x, u, Batch(m, x))
  }

  /** Page u of x is about to leave: the free list is empty and a swapout would take it. */
  ghost predicate Leaving(m: M, g: G, x: nat, u: nat) { g.free == [] && Doomed(m, x, u) }

  /** In particular the lowest idle page of the victim is doomed, as soon as one slot is free. */
  lemma LowestIdleDoomed(m: M, g: G, v: nat, u: nat)
    requires Inv(m, g) && IsVictim(m.procs, v) && LowestIdle(m.tabs, m.procs[v].pgdir, u) && !NoSlot(m)
    ensures Doomed(m, m.procs[v].pgdir, u)
  {
    hide FreeOk, TabsOk, PagesOk, SlotsOk, ProcsOk, Pte, Prefers, Batch;
    var d := m.procs[v].pgdir;
    var pages, idle := Evictables(m.tabs, d), Idles(m.tabs, d);
    assert u in idle && u in pages;
    assert (set w | w in pages && Sooner(idle, w, u)) == {};
    DrainedBatch(m, d);
    assert Evictable(Pte(m.tabs, d, u));
    assert Leaver(m.tabs, d, u, Batch(m, d));
  }

  /** There is a victim as soon as there is a candidate. */
  lemma {:induction false} SomeVictim(procs: seq<Proc>)
    ensures NoVictim(procs) || exists v: nat :: IsVictim(procs, v)
  {
    if procs != [] {
      var n := |procs| - 1;
      var front := procs[..n];
      SomeVictim(front);
      assert forall p :: 0 <= p < n ==> front[p] == procs[p];
      if NoVictim(front) {
        if Candidate(procs[n]) {
          assert IsVictim(procs, n);
        }
      } else {
        var v: nat :| IsVictim(front, v);
        if !Candidate(procs[n]) || Prefers(procs[v], procs[n]) {
          assert IsVictim(procs, v);
        } else {
          assert IsVictim(procs, n);
        }
      }
    }
  }

  lemma GivesOnce(m: M, g: G, n: nat, n': nat)
    requires Gives(m, g, n) && Gives(m, g, n')
    ensures n == n'
  {
    hide Batch, IsVictim;
    SomeVictim(m.procs);
    if !NoVictim(m.procs) {
      var v: nat :| IsVictim(m.procs, v);
    }
  }

  /** Without a free slot the machine is stuck. */
  lemma NoSlotStuck(m: M)
    requires NoSlot(m)
    ensures Stuck(m)
  {
    SomeVictim(m.procs);
    hide NoSlot, Prefers, NoneEvictable;
    if !NoVictim(m.procs) {
      var v: nat :| IsVictim(m.procs, v);
      assert Drained(m, m.procs[v].pgdir);
    }
  }

  /** The pages that left memory are exactly those that were about to. */
  ghost predicate LeftOnly(m0: M, g0: G, m: M) {
    && |g0.own| == NFRAMES && TabsShaped(m0.tabs) && TabsShaped(m.tabs)
    && forall x, u :: 0 <= x < NFRAMES && g0.own[x].Dir? && 0 <= u < UPAGES ==>
         (Present(Pte(m.tabs, x, u)) <==> Present(Pte(m0.tabs, x, u)) && !Leaving(m0, g0, x, u))
  }

  /** n frames are on the free list, after a swapout if it was empty. */
  ghost predicate Gives(m: M, g: G, n: nat) {
    && TabsShaped(m.tabs) && (g.free != [] ==> n == |g.free|) && (g.free == [] && NoVictim(m.procs) ==> n == 0)
    && forall v: nat :: g.free == [] && IsVictim(m.procs, v) ==>
         m.procs[v].pgdir < NFRAMES && n == Batch(m, m.procs[v].pgdir)
  }

  lemma StuckBatch(m: M, v: nat)
    requires Stuck(m) && IsVictim(m.procs, v) && TabsShaped(m.tabs) && m.procs[v].pgdir < NFRAMES && |m.slots| == NSLOTS
    requires Policy(m)
    ensures Batch(m, m.procs[v].pgdir) == 0
  {
    hide NoneEvictable, NoSlot, Batch, Prefers;
    assert Candidate(m.procs[v]);
    var w: nat :| IsVictim(m.procs, w) && Drained(m, m.procs[w].pgdir);
    OneVictim(m.procs, v, w);
    DrainedBatch(m, m.procs[v].pgdir);
  }

  lemma StuckStays(m: M, g: G, x: nat, u: nat)
    requires Inv(m, g) && Stuck(m)
    ensures !Leaving(m, g, x, u)
  {
    hide FreeOk, TabsOk, PagesOk, SlotsOk, ProcsOk, Prefers, Stuck, Batch, Rank;
    if Leaving(m, g, x, u) {
      var v: nat :| IsVictim(m.procs, v) && m.procs[v].pgdir == x && Leaver(m.tabs, x, u, Batch(m, x));
      StuckBatch(m, v);
      assert false;
    }
  }

  lemma SwapLeft(m0: M, g0: G, m: M, g: G)
    requires Inv(m0, g0) && Shaped(m, g) && SwapDone(m0, g0, m, g) && g0.free == []
    ensures LeftOnly(m0, g0, m) && Gives(m0, g0, |g.free|)
  {
    hide FreeOk, TabsOk, PagesOk, SlotsOk, ProcsOk, IsVictim, NoVictim, Batch, Rank, Pte, Present, Less;
    forall x: nat, u: nat | x < NFRAMES && g0.own[x].Dir? && u < UPAGES
      ensures Present(Pte(m.tabs, x, u)) <==> Present(Pte(m0.tabs, x, u)) && !Leaving(m0, g0, x, u)
    {
      SwapLeftAt(m0, g0, m, g, x, u);
    }
  }

  lemma SwapLeftAt(m0: M, g0: G, m: M, g: G, x: nat, u: nat)
    requires Inv(m0, g0) && Shaped(m, g) && SwapDone(m0, g0, m, g) && g0.free == []
    requires x < NFRAMES && g0.own[x].Dir? && u < UPAGES
    ensures Present(Pte(m.tabs, x, u)) <==> Present(Pte(m0.tabs, x, u)) && !Leaving(m0, g0, x, u)
  {
    hide FreeOk, TabsOk, PagesOk, SlotsOk, ProcsOk, IsVictim, Batch, Rank, Pte, Less, First, Evictables, Idles;
    if NoVictim(m0.procs) {
      NoVictimNone(m0.procs);
    } else {
      var v: nat :| IsVictim(m0.procs, v);
      assert Swapped(m0, g0, m, g, v);
      if m0.procs[v].pgdir != x && Leaving(m0, g0, x, u) {
        var w: nat :| IsVictim(m0.procs, w) && m0.procs[w].pgdir == x;
        OneVictim(m0.procs, v, w);
        assert false;
      }
    }
  }

  lemma SwapSlots(m0: M, g0: G, m: M, g: G)
    requires SwapDone(m0, g0, m, g)
    ensures |FreeSlots(m.slots)| + |g.free| == |FreeSlots(m0.slots)| + |g0.free|
  {
    hide IsVictim, Evicting, Less, Leavers, CalmBut, Searched, Batch, FreeSlots;
    if !NoVictim(m0.procs) {
      var v: nat :| IsVictim(m0.procs, v);
      assert Swapped(m0, g0, m, g, v);
    }
  }

  lemma NoVictimNone(procs: seq<Proc>)
    requires NoVictim(procs)
    ensures forall v: nat :: !IsVictim(procs, v)
  {
  }

  lemma SwapStuckAt(m0: M, g0: G, m: M, g: G, v: nat)
    requires Swapped(m0, g0, m, g, v) && |m0.slots| == |m.slots| == NSLOTS && Policy(m0) && Policy(m)
    ensures |g.free| == |g0.free| <==> Drained(m0, m0.procs[v].pgdir)
    ensures |g.free| == |g0.free| ==> m.procs == m0.procs && Drained(m, m0.procs[v].pgdir)
  {
    hide First, Idles, Leavers, Drained, CalmBut, Pte;
    var d := m0.procs[v].pgdir;
    DrainedBatch(m0, d);
    if Batch(m0, d) == 0 {
      LessTwice(m0.procs, v, 0, 0);
      Subset(Evictables(m.tabs, d), Evictables(m0.tabs, d));
      DrainedBatch(m, d);
    }
  }

  /** A swapout frees nothing exactly when it was stuck, and then it still is. */
  lemma SwapStuck(m0: M, g0: G, m: M, g: G)
    requires Inv(m0, g0) && Inv(m, g) && SwapDone(m0, g0, m, g)
    ensures |g.free| == |g0.free| <==> Stuck(m0)
    ensures Stuck(m0) ==> Stuck(m)
  {
    hide FreeOk, TabsOk, PagesOk, SlotsOk, ProcsOk, Prefers, Swapped, Drained;
    if NoVictim(m0.procs) {
    } else {
      var v: nat :| IsVictim(m0.procs, v);
      SwapStuckAt(m0, g0, m, g, v);
      if Stuck(m0) {
        var w: nat :| IsVictim(m0.procs, w) && Drained(m0, m0.procs[w].pgdir);
        OneVictim(m0.procs, v, w);
      }
    }
  }

  /** Every page of every directory is in memory or not as before. */
  ghost predicate Resident(m0: M, g0: G, m: M) {
    && |g0.own| == NFRAMES && TabsShaped(m0.tabs) && TabsShaped(m.tabs)
    && forall x, u :: 0 <= x < NFRAMES && g0.own[x].Dir? && 0 <= u < UPAGES ==>
         (Present(Pte(m.tabs, x, u)) <==> Present(Pte(m0.tabs, x, u)))
  }

  lemma ResidentTrans(m0: M, g0: G, m1: M, g1: G, m2: M)
    requires Resident(m0, g0, m1) && Resident(m1, g1, m2)
    requires forall x :: 0 <= x < NFRAMES && g0.own[x].Dir? ==> g1.own[x].Dir?
    ensures Resident(m0, g0, m2)
  {
    hide Pte;
  }

  lemma CalmResident(m: M, g: G, m': M)
    requires Calm(m, g, m')
    ensures Resident(m, g, m')
  {
    hide Pte;
  }

  /** Without a free slot a swapout moves nothing. */
  lemma SwapNoSlot(m0: M, g0: G, m: M, g: G)
    requires Inv(m0, g0) && Inv(m, g) && SwapDone(m0, g0, m, g) && NoSlot(m0)
    ensures Resident(m0, g0, m) && |g.free| == |g0.free| && Vain(m0, g0, m)
  {
    hide FreeOk, TabsOk, PagesOk, SlotsOk, ProcsOk, IsVictim, First, Pte, Less, Rank, Idle, Evictable, Vain, Searched;
    assert FreeSlots(m0.slots) == {};
    if NoVictim(m0.procs) {
      NoVictimNone(m0.procs);
      VainSame(m0, g0, m);
    } else {
      var v: nat :| IsVictim(m0.procs, v);
      assert Swapped(m0, g0, m, g, v);
      assert Leavers(m0.tabs, m0.procs[v].pgdir, 0) == {};
      LessTwice(m0.procs, v, 0, 0);
      VainSwap(m0, g0, m, v);
    }
  }

  /** The idle pages of d after a swapout that found no slot: all, if d is the victim's and none was. */
  ghost function IdleAfter(m: M, d: nat): set<nat>
    requires TabsShaped(m.tabs) && d < NFRAMES
  {
    if Idles(m.tabs, d) == {} && (exists v: nat :: IsVictim(m.procs, v) && m.procs[v].pgdir == d)
    then Evictables(m.tabs, d) else Idles(m.tabs, d)
  }

  /** All that a swapout without a slot does is to clear Accessed bits of the victim. */
  ghost predicate Vain(m0: M, g0: G, m: M) {
    && |g0.own| == NFRAMES && TabsShaped(m0.tabs) && TabsShaped(m.tabs) && m.procs == m0.procs
    && forall x :: 0 <= x < NFRAMES && g0.own[x].Dir? ==>
         Evictables(m.tabs, x) == Evictables(m0.tabs, x) && Idles(m.tabs, x) == IdleAfter(m0, x)
  }

  lemma VainSame(m0: M, g0: G, m: M)
    requires Inv(m0, g0) && (forall v: nat :: !IsVictim(m0.procs, v)) && m.procs == m0.procs && m.tabs == m0.tabs
    ensures Vain(m0, g0, m)
  {
    hide FreeOk, TabsOk, PagesOk, SlotsOk, ProcsOk, IsVictim, Evictables, Idles;
  }

  lemma VainSwap(m0: M, g0: G, m: M, v: nat)
    requires Inv(m0, g0) && IsVictim(m0.procs, v) && m.procs == m0.procs && m0.procs[v].pgdir < NFRAMES
    requires CalmBut(m0, g0, m, m0.procs[v].pgdir) && Evicting(m0.tabs, m.tabs, m0.procs[v].pgdir, {})
    requires Searched(m.tabs, m0.procs[v].pgdir)
    ensures Vain(m0, g0, m)
  {
    hide FreeOk, TabsOk, PagesOk, SlotsOk, ProcsOk, Prefers, Candidate, Pte, First, Evictable, Idle, Present;
    forall x | 0 <= x < NFRAMES && g0.own[x].Dir?
      ensures Evictables(m.tabs, x) == Evictables(m0.tabs, x) && Idles(m.tabs, x) == IdleAfter(m0, x)
    {
      if x == m0.procs[v].pgdir {
        assert Evictables(m0.tabs, x) - {} == Evictables(m0.tabs, x) && Idles(m0.tabs, x) - {} == Idles(m0.tabs, x);
      } else {
        assert Evictables(m.tabs, x) == Evictables(m0.tabs, x) && Idles(m.tabs, x) == Idles(m0.tabs, x);
        forall w: nat | IsVictim(m0.procs, w) ensures m0.procs[w].pgdir != x {
          OneVictim(m0.procs, v, w);
        }
      }
    }
  }

  /** A second time changes nothing more. */
  lemma VainTwice(m0: M, g0: G, m1: M, g1: G, m2: M)
    requires Vain(m0, g0, m1) && Vain(m1, g1, m2)
    requires forall x :: 0 <= x < NFRAMES && g0.own[x].Dir? ==> g1.own[x].Dir?
    ensures Vain(m0, g0, m2)
  {
    hide IsVictim, Evictables, Idles;
  }

  // A machine whose entries and counters are the same chooses the same pages.

  lemma SameBatch(m0: M, m: M, d: nat)
    requires TabsShaped(m0.tabs) && TabsShaped(m.tabs) && d < NFRAMES && Unmoved(m0, m)
    requires forall u :: 0 <= u < UPAGES ==> Pte(m.tabs, d, u) == Pte(m0.tabs, d, u)
    ensures Batch(m, d) == Batch(m0, d) && Evictables(m.tabs, d) == Evictables(m0.tabs, d)
    ensures Idles(m.tabs, d) == Idles(m0.tabs, d)
  {
    hide Pte;
    assert Evictables(m.tabs, d) == Evictables(m0.tabs, d);
    assert Idles(m.tabs, d) == Idles(m0.tabs, d);
  }

  lemma SameDoomed(m0: M, g0: G, m: M, d: nat, x: nat, u: nat)
    requires SereneBut(m0, g0, m, d) && x < NFRAMES && g0.own[x].Dir? && x != d && u < UPAGES
    ensures Doomed(m, x, u) <==> Doomed(m0, x, u)
  {
    hide Pte, Batch, Rank, IsVictim;
    SameBatch(m0, m, x);
  }

  lemma SameGives(m0: M, g0: G, m: M, g: G, d: nat, n: nat)
    requires Inv(m0, g0) && SereneBut(m0, g0, m, d) && d < NFRAMES && !g0.own[d].Dir? && g.free == []
    requires Gives(m0, g0.(free := []), n)
    ensures Gives(m, g, n)
  {
    hide FreeOk, TabsOk, PagesOk, SlotsOk, Pte, Batch, Prefers;
    forall v: nat | IsVictim(m.procs, v) ensures m.procs[v].pgdir < NFRAMES && n == Batch(m, m.procs[v].pgdir) {
      assert ProcOk(m0.procs[v], g0.own);
      SameBatch(m0, m, m.procs[v].pgdir);
    }
  }

  /** A second swapout from a stuck machine moves nothing either. */
  lemma LeftTwice(m0: M, g0: G, m1: M, g1: G, m2: M)
    requires Inv(m0, g0) && Inv(m1, g1) && Stuck(m0) && Stuck(m1) && LeftOnly(m0, g0, m1) && LeftOnly(m1, g1, m2)
    requires forall x :: 0 <= x < NFRAMES && g0.own[x].Dir? ==> g1.own[x].Dir?
    ensures LeftOnly(m0, g0, m2)
  {
    hide Inv, Stuck, Leaving, Pte, Present;
    forall x: nat, u: nat | x < NFRAMES && g0.own[x].Dir? && u < UPAGES
      ensures Present(Pte(m2.tabs, x, u)) <==> Present(Pte(m0.tabs, x, u)) && !Leaving(m0, g0, x, u)
    {
      StuckStays(m0, g0, x, u);
      StuckStays(m1, g1, x, u);
    }
  }

  /** Nothing leaves while the free list lasts. */
  lemma LeftNone(m: M, g: G, m': M)
    requires g.free != [] && Calm(m, g, m')
    ensures LeftOnly(m, g, m')
  {
    hide Pte;
  }

  lemma LeftCalm(m0: M, g0: G, m1: M, g1: G, m2: M)
    requires LeftOnly(m0, g0, m1) && Calm(m1, g1, m2)
    requires forall x :: 0 <= x < NFRAMES && g0.own[x].Dir? ==> g1.own[x].Dir?
    ensures LeftOnly(m0, g0, m2)
  {
    hide Pte, Leaving, Present;
  }

  /** Process v counts n resident pages less; rss is a uint and wraps. */
  function Less(procs: seq<Proc>, v: nat, n: nat): seq<Proc>
    requires v < |procs|
  {
    procs[v := procs[v].(rss := (procs[v].rss - n) % UINT)]
  }

  lemma LessTwice(procs: seq<Proc>, v: nat, a: nat, b: nat)
    requires v < |procs|
    ensures |Less(procs, v, a)| == |procs| && Less(Less(procs, v, a), v, b) == Less(procs, v, a + b)
    ensures Less(procs, v, 0) == procs
  {
    WrapTwice(procs[v].rss, a, b);
  }

  /** A victim that gave up more pages than it counted has a huge rss and stays the victim. */
  lemma WrapStaysVictim(procs: seq<Proc>, v: nat, n: nat)
    requires IsVictim(procs, v) && procs[v].rss < n <= 100
    requires forall p :: 0 <= p < |procs| && p != v ==> procs[p].rss < UINT - 100
    ensures IsVictim(Less(procs, v, n), v) && Less(procs, v, n)[v].rss == UINT + procs[v].rss - n
  {
    WrapAdd(-1, UINT + procs[v].rss - n);
  }

  lemma WrapTwice(x: Uint, a: nat, b: nat)
    ensures ((x - a) % UINT - b) % UINT == (x - (a + b)) % UINT && x % UINT == x
  {
    var q := (x - a) / UINT;
    assert x - (a + b) == q * UINT + ((x - a) % UINT - b);
    WrapAdd(q, (x - a) % UINT - b);
  }

  lemma WrapAdd(q: int, y: int)
    ensures (q * UINT + y) % UINT == y % UINT
  {
  }
}
