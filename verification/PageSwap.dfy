/** The frame allocator and the swapper (kalloc.c, pageswap.c). */
module PageSwap {
  import opened Params
  import opened Paging
  import opened PageSteps
  import opened Victims

  // The blocks of a slot.

  /** disk' is disk with the first n blocks of slot s taken from page. */
  ghost predicate Stored(disk: seq<seq<nat>>, disk': seq<seq<nat>>, s: nat, page: seq<nat>, n: nat)
    requires DiskShaped(disk) && s < NSLOTS && |page| == PGSIZE && n <= SLOTBLOCKS
  {
    && |disk'| == |disk|
    && forall b :: 0 <= b < |disk| ==>
         var i := b - SWAPSTART - s * SLOTBLOCKS;
         disk'[b] == if 0 <= i < n then page[i * BSIZE..(i + 1) * BSIZE] else disk[b]
  }

  lemma StoredOther(disk: seq<seq<nat>>, disk': seq<seq<nat>>, s: nat, page: seq<nat>, s': nat)
    requires DiskShaped(disk) && s < NSLOTS && |page| == PGSIZE && Stored(disk, disk', s, page, SLOTBLOCKS)
    requires DiskShaped(disk') && s' < NSLOTS && s' != s
    ensures SlotPage(disk', s') == SlotPage(disk, s')
  {
    forall i | 0 <= i < PGSIZE ensures SlotPage(disk', s')[i] == SlotPage(disk, s')[i] {
      var b := SWAPSTART + s' * SLOTBLOCKS + i / BSIZE;
      assert disk'[b] == disk[b];
    }
  }

  lemma StoredPage(disk: seq<seq<nat>>, disk': seq<seq<nat>>, s: nat, page: seq<nat>)
    requires DiskShaped(disk) && s < NSLOTS && |page| == PGSIZE && Stored(disk, disk', s, page, SLOTBLOCKS)
    ensures DiskShaped(disk') && SlotPage(disk', s) == page
    ensures forall s' :: 0 <= s' < NSLOTS && s' != s ==> SlotPage(disk', s') == SlotPage(disk, s')
  {
    forall i | 0 <= i < PGSIZE ensures SlotPage(disk', s)[i] == page[i] {
      var q, r := i / BSIZE, i % BSIZE;
      assert disk'[SWAPSTART + s * SLOTBLOCKS + q] == page[q * BSIZE..(q + 1) * BSIZE];
      assert page[q * BSIZE..(q + 1) * BSIZE][r] == page[q * BSIZE + r];
    }
    forall s' | 0 <= s' < NSLOTS && s' != s ensures SlotPage(disk', s') == SlotPage(disk, s') {
      StoredOther(disk, disk', s, page, s');
    }
  }

  /** What kfree leaves in the frame and in the list. */
  lemma FreedFrame(m: M, g: G, f: nat)
    requires Shaped(m, g) && f < NFRAMES
    ensures var m' := Freed(m, f);
      && Shaped(m', FreedG(g, f)) && m'.head == Addr(f) && m'.link[f] == m.head
      && forall i :: 4 <= i < PGSIZE ==> m'.data[f][i] == 1
  {
  }

  lemma DoubleFrees(m: M, g: G, f: nat)
    requires Shaped(m, g) && FreeOk(m, g) && f < NFRAMES && g.own[f].Free?
    ensures forall g': G :: Shaped(Freed(m, f), g') ==> !FreeOk(Freed(m, f), g')
  {
    hide FreeOk, Freed;
    forall g': G | Shaped(Freed(m, f), g') ensures !FreeOk(Freed(m, f), g') {
      DoubleFree(m, g, g', f);
    }
  }

  lemma ListHead(m: M, g: G)
    requires Shaped(m, g) && FreeOk(m, g)
    ensures m.head == Below(g.free, |g.free|) && Below(g.free, 0) == 0
  {
  }

  lemma ListLink(m: M, g: G, k: nat)
    requires Shaped(m, g) && FreeOk(m, g) && k < |g.free|
    ensures var a := Below(g.free, k + 1);
      a >= KERNBASE && FrameAt(a) < NFRAMES && m.link[FrameAt(a)] == Below(g.free, k)
  {
    hide Junk;
    FrameAddr(g.free[k]);
    hide Addr, FrameAt;
    assert FreeFrame(m.data, m.link, g.free, g.free[k], k);
  }

  // A frame that is freed while it is free.

  lemma FreeAt(m: M, g: G, f: nat)
    requires Shaped(m, g) && FreeOk(m, g) && f < NFRAMES && g.own[f].Free?
    ensures g.own[f].k < |g.free| && g.free[g.own[f].k] == f
  {
    hide Junk, Below, Addr;
    assert FreeFrame(m.data, m.link, g.free, f, g.own[f].k);
  }

  lemma Linked(m: M, g: G, k: nat)
    requires Shaped(m, g) && FreeOk(m, g) && k < |g.free|
    ensures g.free[k] < NFRAMES && g.own[g.free[k]] == Free(k) && m.link[g.free[k]] == Below(g.free, k)
  {
    hide Junk, Below, Addr;
    assert FreeFrame(m.data, m.link, g.free, g.free[k], k);
  }

  /** A link that is the address of a frame leads to that frame. */
  lemma BelowIs(free: seq<nat>, k: nat, f: nat)
    requires k <= |free|
    ensures Below(free, k) == Addr(f) <==> k > 0 && free[k - 1] == f
  {
  }

  /** Below its top, a list of the machine after the free has the old list down to f. */
  lemma {:induction false} SameWalk(m: M, g: G, g': G, f: nat, j: nat)
    requires Shaped(m, g) && FreeOk(m, g) && f < NFRAMES && g.own[f].Free? && j < |g.free| - g.own[f].k
    requires Shaped(Freed(m, f), g') && FreeOk(Freed(m, f), g')
    ensures j + 1 < |g'.free| && g'.free[|g'.free| - 1] == f && g'.free[|g'.free| - 2 - j] == g.free[|g.free| - 1 - j]
  {
    hide ListOk, Junk, Below, Addr;
    var m' := Freed(m, f);
    var n, n' := |g.free|, |g'.free|;
    ListHead(m, g);
    ListHead(m', g');
    FreeAt(m, g, f);
    BelowIs(g'.free, n', f);
    if j == 0 {
      Linked(m', g', n' - 1);
      BelowIs(g.free, n, g.free[n - 1]);
      BelowIs(g'.free, n' - 1, g.free[n - 1]);
    } else {
      SameWalk(m, g, g', f, j - 1);
      Linked(m, g, n - j);
      Linked(m', g', n' - 1 - j);
      BelowIs(g.free, n - j, g.free[n - 1 - j]);
      BelowIs(g'.free, n' - 1 - j, g.free[n - 1 - j]);
    }
  }

  /** Freeing a free frame ties the list into a ring: whatever is said of the frames, it is no free list. */
  lemma DoubleFree(m: M, g: G, g': G, f: nat)
    requires Shaped(m, g) && FreeOk(m, g) && f < NFRAMES && g.own[f].Free? && Shaped(Freed(m, f), g')
    ensures !FreeOk(Freed(m, f), g')
  {
    hide ListOk, Junk, Below, Addr, Freed;
    if FreeOk(Freed(m, f), g') {
      FreeAt(m, g, f);
      var j, n' := |g.free| - 1 - g.own[f].k, |g'.free|;
      SameWalk(m, g, g', f, j);
      Linked(Freed(m, f), g', n' - 1);
      Linked(Freed(m, f), g', n' - 2 - j);
    }
  }

  /** The first frame wholly at or above an address, and the first not wholly below it. */
  function UpFrame(a: nat): nat
    requires a >= KERNBASE
  {
    (a - KERNBASE + PGSIZE - 1) / PGSIZE
  }

  function DownFrame(a: nat): nat
    requires a >= KERNBASE
  {
    (a - KERNBASE) / PGSIZE
  }

  /** The frames from UpFrame to DownFrame are those that lie wholly between the addresses. */
  lemma WholeFrames(from: nat, to: nat, f: nat)
    requires KERNBASE <= from && KERNBASE <= to
    ensures UpFrame(from) <= f < DownFrame(to) <==> from <= KERNBASE + f * PGSIZE && KERNBASE + (f + 1) * PGSIZE <= to
  {
  }

  lemma Aligned(from: nat, f: nat, to: nat, end: nat)
    requires from >= Addr(end) && KERNBASE <= to <= Addr(NFRAMES)
    ensures from >= KERNBASE && (from + PGSIZE - 1) / PGSIZE * PGSIZE == Addr(UpFrame(from)) && end <= UpFrame(from)
    ensures Addr(f) + PGSIZE == Addr(f + 1) && (Addr(f) + PGSIZE <= to <==> f < DownFrame(to))
    ensures DownFrame(to) <= NFRAMES
  {
  }

  lemma BootInv(m: M, g: G)
    requires Shaped(m, g) && Policy(m) && 1 <= m.end <= NFRAMES && m.head == 0 && g.free == []
    requires forall f :: 0 <= f < NFRAMES ==> g.own[f] == if f < m.end then Reserved else Taken
    requires forall p :: 0 <= p < |m.procs| ==> m.procs[p].state == Unused
    ensures Inv(m, g)
  {
    hide Pte, FreeFrame, SlotOk;
  }

  lemma EntrySlot(m: M, g: G, d: nat, v: nat)
    requires Inv(m, g) && d < NFRAMES && g.own[d] == Dir(true) && v < UPAGES
    ensures SlotOk(Pte(m.tabs, d, v), d, v, m.slots, g.sown)
  {
  }

  lemma FreeUnnamed(m: M, g: G, s: nat)
    requires Inv(m, g) && s < NSLOTS && m.slots[s].isFree
    ensures Unnamed(m.tabs, g.own, s)
  {
    forall d, v ensures !Names(m.tabs, g.own, d, v, s) {
      if Names(m.tabs, g.own, d, v, s) {
        EntrySlot(m, g, d, v);
      }
    }
  }

  /** Using a free slot, whatever goes into it. */
  lemma SlotFilled(m: M, g: G, m': M, s: nat)
    requires Inv(m, g) && s < NSLOTS && m.slots[s].isFree
    requires m' == m.(slots := m'.slots, disk := m'.disk) && |m'.slots| == NSLOTS
    requires m'.slots == m.slots[s := m'.slots[s]] && DiskShaped(m'.disk)
    requires forall s' :: 0 <= s' < NSLOTS && s' != s ==> SlotPage(m'.disk, s') == SlotPage(m.disk, s')
    ensures Still(m, g, m', g)
  {
    hide ListOk, TabsOk, PagesOk, ProcsOk, Pte, SlotPage, FrameOf;
    forall d, v | 0 <= d < NFRAMES && g.own[d] == Dir(true) && 0 <= v < UPAGES
      ensures SlotOk(Pte(m'.tabs, d, v), d, v, m'.slots, g.sown) && Seen(m', g, d, v) == Seen(m, g, d, v)
    {
      EntrySlot(m, g, d, v);
    }
  }

  /** Releasing a slot that no live entry names. */
  lemma SlotReleased(m: M, g: G, s: nat)
    requires Inv(m, g) && s < NSLOTS && Unnamed(m.tabs, g.own, s)
    ensures var m' := m.(slots := m.slots[s := Slot(0, true)]); Inv(m', g) && Quiet(m, g, m', g, NOWHERE, NFRAMES)
  {
    hide ListOk, TabsOk, PagesOk, ProcsOk, Pte, SlotPage, FrameOf, Seen;
    var m' := m.(slots := m.slots[s := Slot(0, true)]);
    forall d, v | 0 <= d < NFRAMES && g.own[d] == Dir(true) && 0 <= v < UPAGES
      ensures SlotOk(Pte(m'.tabs, d, v), d, v, m'.slots, g.sown)
    {
      assert !Names(m.tabs, g.own, d, v, s);
      EntrySlot(m, g, d, v);
    }
    forall d, v | 0 <= d < NFRAMES && g.own[d].Dir? && 0 <= v < UPAGES ensures Seen(m', g, d, v) == Seen(m, g, d, v) {
      SeenSame(m, g, m', d, v);
    }
  }

  /** No frame is seen by two pages, and none that is seen is free or holds tables. */
  lemma FrameSeenOnce(m: M, g: G, d: nat, v: nat, d': nat, v': nat)
    requires Inv(m, g) && d < NFRAMES && d' < NFRAMES && g.own[d].Dir? && g.own[d'].Dir? && v < UPAGES && v' < UPAGES
    requires Present(Pte(m.tabs, d, v)) && Present(Pte(m.tabs, d', v'))
    requires FrameOf(Pte(m.tabs, d, v)) == FrameOf(Pte(m.tabs, d', v'))
    ensures d == d' && v == v' && FrameOf(Pte(m.tabs, d, v)) < NFRAMES
    ensures g.own[FrameOf(Pte(m.tabs, d, v))] == Page(d, v)
    ensures FrameOf(Pte(m.tabs, d, v)) !in g.free
  {
    assert PageOk(m.tabs, g.own, d, v) && PageOk(m.tabs, g.own, d', v');
    assert forall k :: 0 <= k < |g.free| ==> g.own[g.free[k]] == Free(k);
  }

  /** No slot has two names. */
  lemma SlotNamedOnce(m: M, g: G, d: nat, v: nat, d': nat, v': nat, s: nat)
    requires Inv(m, g) && Names(m.tabs, g.own, d, v, s) && Names(m.tabs, g.own, d', v', s)
    ensures d == d' && v == v' && s < NSLOTS && !m.slots[s].isFree
  {
    EntrySlot(m, g, d, v);
    EntrySlot(m, g, d', v');
  }

  lemma SameResident(m0: M, g0: G, m1: M, m2: M)
    requires Resident(m0, g0, m1) && m2.tabs == m1.tabs
    ensures Resident(m0, g0, m2)
  {
    hide Pte;
  }

  lemma DirDies(m: M, g: G, d: nat)
    requires Inv(m, g) && d < NFRAMES && g.own[d] == Dir(true)
    ensures Inv(m, g.(own := g.own[d := Dir(false)]))
  {
    hide ListOk, Pte, Present, FrameOf, SlotOk;
    var g' := g.(own := g.own[d := Dir(false)]);
    assert ListOk(m.data, m.link, m.head, g'.free, g'.own) by {
      ListKeeps(m, g, d);
    }
    forall x, i | 0 <= x < NFRAMES && g'.own[x].Dir? && 0 <= i < NENTRIES ensures PdeOk(m.tabs, g'.own, x, i) {
      assert PdeOk(m.tabs, g.own, x, i);
    }
    forall x, v | 0 <= x < NFRAMES && g'.own[x].Dir? && 0 <= v < UPAGES ensures PageOk(m.tabs, g'.own, x, v) {
      assert PageOk(m.tabs, g.own, x, v);
    }
  }

  lemma ListKeeps(m: M, g: G, d: nat)
    requires Shaped(m, g) && FreeOk(m, g) && d < NFRAMES && g.own[d].Dir?
    ensures ListOk(m.data, m.link, m.head, g.free, g.own[d := Dir(false)])
  {
    hide Junk, Addr, Below;
  }

  /** Slot s is named by one of the pages of d below n. */
  ghost predicate NamedBelow(m: M, g: G, d: nat, s: nat, n: nat)
    requires Shaped(m, g) && s < NSLOTS
  {
    g.sown[s].0 == d && g.sown[s].1 < n && Names(m.tabs, g.own, d, g.sown[s].1, s)
  }

  lemma NamedStep(m: M, g: G, d: nat, v: nat)
    requires Inv(m, g) && d < NFRAMES && g.own[d] == Dir(true) && v < UPAGES
    ensures forall s :: 0 <= s < NSLOTS ==>
      (NamedBelow(m, g, d, s, v + 1) <==> NamedBelow(m, g, d, s, v) || Names(m.tabs, g.own, d, v, s))
    ensures forall s :: 0 <= s < NSLOTS && Names(m.tabs, g.own, d, v, s) ==>
      forall d', v' :: d' != d ==> !Names(m.tabs, g.own, d', v', s)
    ensures !Present(Pte(m.tabs, d, v)) && Pte(m.tabs, d, v) != 0 ==>
      FrameOf(Pte(m.tabs, d, v)) < NSLOTS && Names(m.tabs, g.own, d, v, FrameOf(Pte(m.tabs, d, v)))
  {
    hide FreeOk, TabsOk, PagesOk, ProcsOk, Pte, FrameOf;
    EntrySlot(m, g, d, v);
    forall s, d', v' | 0 <= s < NSLOTS && Names(m.tabs, g.own, d, v, s) && d' != d
      ensures !Names(m.tabs, g.own, d', v', s)
    {
      if Names(m.tabs, g.own, d', v', s) {
        SlotNamedOnce(m, g, d, v, d', v', s);
      }
    }
  }

  lemma SeenSame(m: M, g: G, m': M, d: nat, v: nat)
    requires Shaped(m, g) && Shaped(m', g) && d < NFRAMES && v < UPAGES
    requires m'.tabs == m.tabs && m'.data == m.data && m'.disk == m.disk
    ensures Seen(m', g, d, v) == Seen(m, g, d, v)
  {
  }

  /** rss of one process and the policy numbers play no part in memory. */
  lemma CountersKeep(m: M, g: G, m': M)
    requires Inv(m, g) && Policy(m')
    requires m' == m.(procs := m'.procs, threshold := m'.threshold, npages := m'.npages)
    requires |m'.procs| == |m.procs|
    requires forall p :: 0 <= p < |m.procs| ==> m'.procs[p] == m.procs[p].(rss := m'.procs[p].rss)
    requires forall p :: 0 <= p < |m.procs| && m.procs[p].state == Embryo ==> m'.procs[p].rss == m.procs[p].rss
    ensures Inv(m', g) && Quiet(m, g, m', g, NOWHERE, NFRAMES) && Evicts(m, g, m', g)
  {
    hide ListOk, TabsOk, PagesOk, Pte, Seen;
    forall p | 0 <= p < |m'.procs| ensures ProcOk(m'.procs[p], g.own) {
      assert ProcOk(m.procs[p], g.own);
    }
    forall d, v | 0 <= d < NFRAMES && g.own[d].Dir? && 0 <= v < UPAGES
      ensures Seen(m', g, d, v) == Seen(m, g, d, v)
    {
      SeenSame(m, g, m', d, v);
    }
  }

  lemma Shapes(m: M, g: G)
    requires Inv(m, g)
    ensures Shaped(m, g) && FreeOk(m, g)
  {
  }

  lemma StillShaped(m: M, g: G, m': M, g': G)
    requires Still(m, g, m', g')
    ensures Inv(m', g') && Shaped(m', g') && FreeOk(m', g') && Policy(m')
  {
  }

  ghost predicate DirRows(m: M, g: G, m': M) {
    |g.own| == |m.tabs| == |m'.tabs| == NFRAMES && forall d :: 0 <= d < NFRAMES && g.own[d].Dir? ==>
         m'.tabs[d] == m.tabs[d]
  }

  /** Frames only move to the free list, none is newly held and directories stay as they are. */
  ghost predicate OnlyFrees(m: M, g: G, m': M, g': G) {
    && |g.own| == |g'.own| == NFRAMES && |g.free| <= |g'.free| && g.free == g'.free[..|g.free|]
    && (forall x :: 0 <= x < NFRAMES ==> g'.own[x] == g.own[x] || g'.own[x].Free?)
    && (forall x :: 0 <= x < NFRAMES && g.own[x].Dir? ==> g'.own[x].Dir?)
    && DirRows(m, g, m')
  }

  lemma OnlyFreesRows(m: M, g: G, m': M)
    requires DirRows(m, g, m')
    ensures OnlyFrees(m, g, m', g)
  {
  }

  lemma OnlyFreesTrans(a: M, ga: G, b: M, gb: G, c: M, gc: G)
    requires OnlyFrees(a, ga, b, gb) && OnlyFrees(b, gb, c, gc)
    ensures OnlyFrees(a, ga, c, gc)
  {
  }

  /** The page at (d, v) went to its slot and its frame to the free list. */
  lemma EvictedStill(a: M, ga: G, b: M, gb: G, c: M, f: nat, d: nat, v: nat)
    requires Still(a, ga, b, gb) && OutOf(a, ga, b, gb, d, v) && f == FrameOf(Pte(a.tabs, d, v)) && Still(b, gb, c, gb)
    requires c.tabs == b.tabs
    ensures f < NFRAMES && |c.data| == |c.tabs| == |c.link| == NFRAMES
    ensures Still(a, ga, Freed(c, f), FreedG(gb, f)) && OnlyFrees(a, ga, Freed(c, f), FreedG(gb, f))
  {
    hide FreeOk, TabsOk, PagesOk, SlotsOk, ProcsOk, PageKept, PdeKept, SlotPage, Pte, Flags, FrameOf, Seen;
    StillTrans(a, ga, b, gb, c, gb);
    FreeKeeps(c, gb, f);
    QuietTrans(a, ga, c, gb, Freed(c, f), FreedG(gb, f), NOWHERE, NFRAMES, f);
    assert forall x :: 0 <= x < NFRAMES && ga.own[x].Dir? ==> OwnerKept(ga, gb, NOWHERE, NFRAMES, x);
    EvictsTrans(a, ga, c, gb, Freed(c, f), FreedG(gb, f));
  }

  lemma FreedCalm(m: M, g: G, f: nat)
    requires Inv(m, g) && f < NFRAMES && g.own[f].Taken?
    ensures Calm(m, g, Freed(m, f))
  {
    hide FreeOk, PagesOk, SlotsOk, ProcsOk, Quiet, Evicts, Pte;
    LooseTabs(m.tabs, g.own, Freed(m, f).tabs, f, Free(0));
  }

  /** Nothing but page v of d left, and then its frame was freed. */
  lemma DepartedFreed(a: M, ga: G, b: M, gb: G, c: M, f: nat, d: nat, v: nat)
    requires Still(a, ga, b, gb) && OutOf(a, ga, b, gb, d, v) && f == FrameOf(Pte(a.tabs, d, v)) && Still(b, gb, c, gb)
    requires c.tabs == b.tabs && ga.own[d].Dir?
    ensures f < NFRAMES && |c.data| == |c.tabs| == |c.link| == NFRAMES
    ensures Departed(a.tabs, Freed(c, f).tabs, d, v) && CalmBut(a, ga, Freed(c, f), d)
  {
    hide FreeOk, TabsOk, PagesOk, SlotsOk, ProcsOk, PageKept, PdeKept, SlotPage, Pte, Flags, FrameOf, Seen, Evicts,
         Present;
    FreedCalm(c, gb, f);
    assert forall x :: 0 <= x < NFRAMES && ga.own[x].Dir? ==> gb.own[x].Dir?;
  }

  lemma NotEnd(m: M, g: G, f: nat)
    requires Shaped(m, g) && FreeOk(m, g) && m.end <= f < NFRAMES
    ensures !g.own[f].Reserved?
  {
  }

  lemma NotReserved(m: M, g: G, f: nat)
    requires Shaped(m, g) && FreeOk(m, g) && f < NFRAMES && !g.own[f].Reserved?
    ensures Addr(f) % PGSIZE == 0 && Addr(m.end) <= Addr(f) < Addr(NFRAMES) && FrameAt(Addr(f)) == f
  {
    hide ListOk;
  }

  lemma VictimDir(m: M, g: G, p: nat)
    requires Inv(m, g) && IsVictim(m.procs, p)
    ensures p < |m.procs| && |g.own| == NFRAMES && m.procs[p].pgdir < NFRAMES && g.own[m.procs[p].pgdir].Dir?
    ensures m.procs[p].state == Ready
  {
  }

  lemma StillPop(m: M, g: G, m': M, g': G)
    requires Still(m, g, m', g') && g'.free != []
    ensures m'.head >= KERNBASE
    ensures FrameAt(m'.head) == g'.free[|g'.free| - 1] < NFRAMES == |m'.data| == |m'.tabs| == |m'.link| == |g'.own|
    ensures Still(m, g, Popped(m'), PoppedG(g'))
  {
    hide FreeOk, TabsOk, PagesOk, SlotsOk, ProcsOk, Quiet, Evicts;
    PopKeeps(m', g');
    StillDef(m', g', Popped(m'), PoppedG(g'));
    StillTrans(m, g, m', g', Popped(m'), PoppedG(g'));
  }

  lemma PoppedLength(g: G)
    requires g.free != [] && g.free[|g.free| - 1] < |g.own|
    ensures |PoppedG(g).free| == |g.free| - 1
  {
  }

  lemma GivesList(m: M, g: G)
    requires Shaped(m, g) && g.free != []
    ensures Gives(m, g, |g.free|)
  {
  }

  lemma StillDirs(m: M, g: G, m': M, g': G)
    requires Still(m, g, m', g')
    ensures |g.own| == |g'.own| == NFRAMES && forall x :: 0 <= x < NFRAMES && g.own[x].Dir? ==> g'.own[x].Dir?
  {
    hide Inv, Evicts, PageKept, PdeKept;
    forall x | 0 <= x < NFRAMES && g.own[x].Dir? ensures g'.own[x].Dir? {
      assert OwnerKept(g, g', NOWHERE, NFRAMES, x);
    }
  }

  lemma PopFresh(m: M, g: G, m': M, g': G)
    requires Still(m, g, m', g') && g'.free != [] && OnlyFrees(m, g, m', g')
    ensures |g'.own| == NFRAMES && g'.free[|g'.free| - 1] < NFRAMES
    ensures var f, g'' := g'.free[|g'.free| - 1], PoppedG(g');
      !g.own[f].Taken? && (forall x :: 0 <= x < NFRAMES ==> x == f || g''.own[x] == g.own[x] || g''.own[x].Free?)
  {
    hide FreeFrame, TabsOk, PagesOk, SlotsOk, ProcsOk, Evicts, PageKept, PdeKept;
    var f := g'.free[|g'.free| - 1];
    assert g'.own[f].Free?;
    assert OwnerKept(g, g', NOWHERE, NFRAMES, f);
  }

  /** The policy stays within its bounds; with the default percentages the threshold stops falling at 9 and the
      batch grows to the limit. */
  lemma PolicySettles(t: nat, n: nat, alpha: nat, beta: nat)
    requires t >= 1 && 1 <= n <= 100
    ensures 1 <= Lowered(t, beta) <= t && n <= Raised(n, alpha) <= 100
    ensures Lowered(t, 10) == t <==> t <= 9
    ensures Raised(n, 25) == n <==> n < 4 || n == 100
  {
    assert t * beta / 100 >= 0;
    assert n * alpha / 100 >= 0;
  }

  /** The threshold fell by beta percent, rounded down, but not below 1; the batch grew by alpha percent, rounded
      down, but not above 100. */
  ghost predicate Adapted(t: nat, t': nat, beta: nat, n: nat, n': nat, alpha: nat) {
    && (if 100 * (t - 1) < t * beta then t' == 1 else t' <= t && 100 * (t - t') <= t * beta < 100 * (t - t' + 1))
    && (if n * alpha >= 100 * (101 - n) then n' == 100 else n <= n' && 100 * (n' - n) <= n * alpha < 100 * (n' - n + 1))
  }

  lemma PolicyAdapts(t: nat, n: nat, alpha: nat, beta: nat)
    requires t >= 1 && 1 <= n <= 100
    ensures Adapted(t, Lowered(t, beta), beta, n, Raised(n, alpha), alpha)
  {
    Percent(t * beta);
    Percent(n * alpha);
  }

  lemma Percent(x: nat)
    ensures 100 * (x / 100) <= x < 100 * (x / 100 + 1)
  {
  }

  function Lowered(t: nat, beta: nat): nat {
    if t - t * beta / 100 < 1 then 1 else t - t * beta / 100
  }

  function Raised(n: nat, alpha: nat): nat {
    if n + n * alpha / 100 > 100 then 100 else n + n * alpha / 100
  }

  lemma StillDef(m: M, g: G, m': M, g': G)
    requires Inv(m', g') && Quiet(m, g, m', g', NOWHERE, NFRAMES) && Evicts(m, g, m', g')
    ensures Still(m, g, m', g')
  {
  }

  lemma ClearStill(m: M, g: G, m': M, d: nat, v: nat)
    requires Inv(m, g) && d < NFRAMES && g.own[d].Dir? && v < UPAGES && Evictable(Pte(m.tabs, d, v))
    requires m' == m.(tabs := SetPte(m.tabs, d, v, ClearAccessed(Pte(m.tabs, d, v))))
    ensures Still(m, g, m', g) && Inv(m', g) && Shaped(m', g) && DirRows(m, g, m') && CalmBut(m, g, m', d)
    ensures forall u :: 0 <= u < UPAGES ==>
      Pte(m'.tabs, d, u) == if u == v then ClearAccessed(Pte(m.tabs, d, v)) else Pte(m.tabs, d, u)
  {
    hide FreeOk, ListOk, PagesOk, SlotsOk, ProcsOk, Quiet, Evicts, ClearAccessed;
    ClearKeeps(m, g, m', d, v);
    SetPteTabs(m.tabs, g.own, d, v, ClearAccessed(Pte(m.tabs, d, v)));
  }

  /** Page v of d has moved from its frame, now held by the caller, to a slot that keeps its bytes and flags. */
  ghost predicate OutOf(m: M, g: G, m': M, g': G, d: nat, v: nat) {
    && Shaped(m, g) && Shaped(m', g') && d < NFRAMES && v < UPAGES
    && var e, e' := Pte(m.tabs, d, v), Pte(m'.tabs, d, v);
    && Present(e) && FrameOf(e) < NFRAMES && g.own[FrameOf(e)] == Page(d, v) && g'.own == g.own[FrameOf(e) := Taken]
    && g'.free == g.free
    && !Present(e') && e' != 0 && Flags(e') + 1 == Flags(e) && FrameOf(e') < NSLOTS
    && m.slots[FrameOf(e')].isFree && (forall s :: 0 <= s < FrameOf(e') ==> !m.slots[s].isFree)
    && m'.slots == m.slots[FrameOf(e') := Slot(Flags(e), false)] && SlotPage(m'.disk, FrameOf(e')) == m.data[FrameOf(e)]
    && m'.data == m.data && m'.end == m.end && m'.npages == m.npages && m'.threshold == m.threshold
    && m'.procs == m.procs
    && DirRows(m, g, m') && Departed(m.tabs, m'.tabs, d, v) && CalmBut(m, g, m', d)
  }

  lemma OutOfSlot(m: M, g: G, m': M, g': G, d: nat, v: nat, s: nat)
    requires OutOk(m, g, m', g', d, v, s) && Present(Pte(m.tabs, d, v)) && User(Pte(m.tabs, d, v))
    requires forall i :: 0 <= i < s ==> !m.slots[i].isFree
    requires g'.free == g.free && m'.npages == m.npages && m'.threshold == m.threshold
    ensures OutOf(m, g, m', g', d, v)
  {
    hide FreeOk, TabsOk, SlotPage;
    SwapEntryFacts(s, Pte(m.tabs, d, v));
    hide SwapEntry;
  }

  lemma OnlyFreesRefl(m: M, g: G)
    requires Shaped(m, g)
    ensures OnlyFrees(m, g, m, g)
  {
  }

  lemma SomeEvictable(tabs: Tables, tabs': Tables, d: nat, v: nat)
    requires LowestIdle(tabs', d, v) && TabsShaped(tabs) && (tabs == tabs' || AccessCleared(tabs, tabs', d, UPAGES))
    ensures !NoneEvictable(tabs, d)
  {
    assert Idle(Pte(tabs', d, v));
    if tabs != tabs' {
      ClearedIdle(tabs, tabs', d);
    }
    assert Evictable(Pte(tabs, d, v));
  }

  lemma OutCounters(m: M, g: G, m': M, g': G, d: nat, v: nat)
    requires OutOf(m, g, m', g', d, v)
    ensures m'.npages == m.npages && m'.threshold == m.threshold && m'.procs == m.procs
    ensures |m.slots| == NSLOTS && |FreeSlots(m'.slots)| == |FreeSlots(m.slots)| - 1
  {
    var s := FrameOf(Pte(m'.tabs, d, v));
    assert FreeSlots(m'.slots) == FreeSlots(m.slots) - {s};
  }

  lemma OutHeld(m: M, g: G, m': M, g': G, d: nat, v: nat)
    requires OutOf(m, g, m', g', d, v)
    ensures FrameOf(Pte(m.tabs, d, v)) < NFRAMES == |g'.own| && g'.own[FrameOf(Pte(m.tabs, d, v))] == Taken
    ensures g'.free == g.free
  {
  }

  lemma HeadEmpty(m: M, g: G)
    requires Shaped(m, g) && FreeOk(m, g)
    ensures m.head == 0 <==> g.free == []
  {
    ListHead(m, g);
  }

  /** Frame a was free or a page before, is filled with fives and is the only one newly held. */
  ghost predicate Handed(m: M, g: G, m': M, g': G, a: nat) {
    && Shaped(m, g) && Shaped(m', g') && a >= KERNBASE && FrameAt(a) < NFRAMES && Addr(FrameAt(a)) == a
    && g'.own[FrameAt(a)].Taken? && !g.own[FrameAt(a)].Taken? && m'.data[FrameAt(a)] == Filled(5, PGSIZE)
    && (forall x :: 0 <= x < NFRAMES ==> x == FrameAt(a) || g'.own[x] == g.own[x] || g'.own[x].Free?)
    && DirRows(m, g, m')
  }

  lemma PoppedHanded(m: M, g: G, m': M, g': G)
    requires Shaped(m, g) && Still(m, g, m', g') && g'.free != [] && OnlyFrees(m, g, m', g')
    requires m'.head >= KERNBASE
    requires FrameAt(m'.head) == g'.free[|g'.free| - 1] < NFRAMES == |m'.data| == |m'.tabs| == |m'.link| == |g'.own|
    ensures Handed(m, g, Popped(m'), PoppedG(g'), m'.head)
  {
    PopFresh(m, g, m', g');
    StillShaped(m, g, m', g');
    ListHead(m', g');
    FrameAddr(g'.free[|g'.free| - 1]);
    hide Still, FreeOk, Inv, FrameAt, Addr;
  }

  lemma BlockOf(disk: seq<seq<nat>>, s: nat, i: nat)
    requires DiskShaped(disk) && s < NSLOTS && i < SLOTBLOCKS
    ensures disk[SWAPSTART + s * SLOTBLOCKS + i] == SlotPage(disk, s)[i * BSIZE..(i + 1) * BSIZE]
  {
    var b := disk[SWAPSTART + s * SLOTBLOCKS + i];
    forall j | 0 <= j < BSIZE ensures SlotPage(disk, s)[i * BSIZE + j] == b[j] {
    }
  }

  /** No used slot becomes free by eviction. */
  lemma UsedStays(m: M, g: G, m': M, g': G)
    requires Still(m, g, m', g')
    ensures |m.slots| == |m'.slots| == NSLOTS && forall s :: 0 <= s < NSLOTS && m'.slots[s].isFree ==> m.slots[s].isFree
  {
    assert forall s :: 0 <= s < NSLOTS && !m.slots[s].isFree ==> SlotKept(m, g, m', g', s);
  }

  lemma StillKeepsSlot(m: M, g: G, m': M, g': G, s: nat)
    requires Still(m, g, m', g') && s < NSLOTS && |m.slots| == NSLOTS && !m.slots[s].isFree
    ensures Shaped(m, g) && Shaped(m', g') && SlotKept(m, g, m', g', s)
  {
  }

  lemma NamedNone(m: M, g: G, d: nat)
    requires Shaped(m, g)
    ensures forall s :: 0 <= s < NSLOTS ==> !NamedBelow(m, g, d, s, 0)
  {
  }

  lemma DeadUnnamed(m: M, g: G, m': M, g': G, d: nat, v: nat, s: nat)
    requires Inv(m, g) && d < NFRAMES && g.own[d] == Dir(true) && s < NSLOTS && Names(m.tabs, g.own, d, v, s)
    requires g' == g.(own := g.own[d := Dir(false)]) && m'.tabs == m.tabs
    ensures Unnamed(m'.tabs, g'.own, s)
  {
    forall d', v' ensures !Names(m'.tabs, g'.own, d', v', s) {
      if Names(m'.tabs, g'.own, d', v', s) {
        SlotNamedOnce(m, g, d, v, d', v', s);
      }
    }
  }

  lemma OneName(m: M, g: G, d: nat, v: nat)
    requires Shaped(m, g)
    ensures forall s, s' :: Names(m.tabs, g.own, d, v, s) && Names(m.tabs, g.own, d, v, s') ==> s == s'
    ensures forall s :: Names(m.tabs, g.own, d, v, s) ==>
      && d < NFRAMES && v < UPAGES && s == FrameOf(Pte(m.tabs, d, v))
      && !Present(Pte(m.tabs, d, v)) && Pte(m.tabs, d, v) != 0
  {
  }

  /** rss of the victim drops by one. */
  lemma LessStill(m: M, g: G, v: nat)
    requires Inv(m, g) && v < |m.procs| && m.procs[v].state == Ready
    ensures Still(m, g, m.(procs := Less(m.procs, v, 1)), g)
  {
    hide ListOk, TabsOk, PagesOk, SlotsOk, ProcsOk, Quiet, Evicts;
    CountersKeep(m, g, m.(procs := Less(m.procs, v, 1)));
  }

  lemma NoneDone(m: M, g: G)
    requires NoVictim(m.procs)
    ensures SwapDone(m, g, m, g)
  {
    hide Swapped;
  }

  /** Eviction frees no slot. */
  lemma SlotsGone(m: M, g: G, m': M, g': G)
    requires Still(m, g, m', g')
    ensures NoSlot(m) ==> NoSlot(m')
  {
    UsedStays(m, g, m', g');
  }

  /** The loop of swapout has moved the pages in gone. */
  ghost predicate Evicted(m0: M, g0: G, m: M, g: G, d: nat, gone: set<nat>) {
    && Shaped(m0, g0) && |m.slots| == NSLOTS && d < NFRAMES && g0.own[d].Dir? && Evicting(m0.tabs, m.tabs, d, gone)
    && CalmBut(m0, g0, m, d)
    && |g.free| == |g0.free| + |gone| && |FreeSlots(m.slots)| == |FreeSlots(m0.slots)| - |gone|
  }

  lemma EvictedNone(m: M, g: G, d: nat)
    requires Shaped(m, g) && d < NFRAMES && g.own[d].Dir?
    ensures Evicted(m, g, m, g, d, {})
  {
    hide Evicting, Pte;
    EvictingNone(m.tabs, d);
  }

  /** One more turn: v, the lowest idle page once findpage was done, left if there was a slot. */
  ghost predicate Turn(m0: M, g0: G, m: M, g: G, d: nat, moved: bool, tabs: Tables, v: nat) {
    && Shaped(m0, g0) && |m.slots| == NSLOTS && CalmBut(m0, g0, m, d) && Picked(m0.tabs, tabs, d)
    && (if moved then LowestIdle(tabs, d, v) && Departed(tabs, m.tabs, d, v) else tabs == m.tabs)
    && |g.free| == |g0.free| + (if moved then 1 else 0)
    && |FreeSlots(m.slots)| == |FreeSlots(m0.slots)| - (if moved then 1 else 0)
  }

  lemma EvictedTurn(m0: M, g0: G, m1: M, g1: G, m: M, g: G, d: nat, gone: set<nat>, moved: bool, tabs: Tables, v: nat)
    requires Evicted(m0, g0, m1, g1, d, gone) && Turn(m1, g1, m, g, d, moved, tabs, v) && Still(m0, g0, m1, g1)
    ensures Evicted(m0, g0, m, g, d, if moved then gone + {v} else gone) && (moved ==> v !in gone)
  {
    hide Still, Evicting, Pte, Picked, LowestIdle, Departed, CalmBut, FreeSlots;
    StillDirs(m0, g0, m1, g1);
    CalmTrans(m0, g0, m1, g1, m, d);
    if moved {
      EvictingTurn(m0.tabs, m1.tabs, tabs, m.tabs, d, gone, v);
    } else {
      EvictingPicked(m0.tabs, m1.tabs, m.tabs, d, gone);
    }
  }

  /** The loop stops after npages pages, or when nothing is left to evict: after exactly Batch pages. */
  lemma SwapEnds(m0: M, g0: G, m: M, g: G, v: nat, gone: set<nat>)
    requires IsVictim(m0.procs, v) && m.procs == Less(m0.procs, v, |gone|)
    requires Evicted(m0, g0, m, g, m0.procs[v].pgdir, gone)
    requires |gone| <= m0.npages && (|gone| == m0.npages || Drained(m, m0.procs[v].pgdir))
    requires |gone| == m0.npages || Searched(m.tabs, m0.procs[v].pgdir)
    ensures SwapDone(m0, g0, m, g)
  {
    hide Less, Pte, First, Leavers, Rank, CalmBut, Searched;
    var d := m0.procs[v].pgdir;
    assert Candidate(m0.procs[v]);
    assert |gone| == Batch(m0, d) by {
      GoneAll(m0, m, d, gone);
    }
    EvictingLeavers(m0.tabs, m.tabs, d, gone);
    forall w: nat | IsVictim(m0.procs, w) ensures Swapped(m0, g0, m, g, w) {
      OneVictim(m0.procs, v, w);
    }
  }

  lemma GoneAll(m0: M, m: M, d: nat, gone: set<nat>)
    requires Evicting(m0.tabs, m.tabs, d, gone) && |FreeSlots(m.slots)| == |FreeSlots(m0.slots)| - |gone|
    requires |gone| <= m0.npages && (|gone| == m0.npages || Drained(m, d))
    ensures |gone| == Batch(m0, d)
  {
    hide Pte, First;
    var pages := Evictables(m0.tabs, d);
    FirstWithin(pages, Idles(m0.tabs, d), gone);
    if |gone| != m0.npages {
      if NoneEvictable(m.tabs, d) {
        assert Evictables(m.tabs, d) == {};
        forall u | u in pages ensures u in gone {
          assert u in gone || u in pages - gone;
        }
        assert pages == gone;
      } else {
        assert FreeSlots(m.slots) == {};
      }
    }
  }

  class Machine {
    var m: M
    ghost var g: G
    const alpha: nat
    const beta: nat

    ghost predicate Valid()
      reads this
    {
      Inv(m, g)
    }

    /** The machine at boot: swapInit frees every slot and kinit every frame from end up. */
    constructor (end: nat, disk: seq<seq<nat>>, procs: seq<Proc>, alpha: nat, beta: nat)
      requires 1 <= end <= NFRAMES && DiskShaped(disk) && forall p :: 0 <= p < |procs| ==> procs[p].state == Unused
      ensures Valid() && |g.free| == NFRAMES - end && (forall f :: end <= f < NFRAMES ==> g.own[f].Free?)
      ensures forall s :: 0 <= s < NSLOTS ==> m.slots[s] == Slot(0, true)
      ensures m.threshold == 100 && m.npages == 4 && m.procs == procs && m.disk == disk
    {
      var blank := Filled(0, PGSIZE);
      var table := Filled(0, NENTRIES);
      m := M(seq(NFRAMES, i => blank), seq(NFRAMES, i => table), Filled(0, NFRAMES), 0, end,
             seq(NSLOTS, i => Slot(1, false)), disk, procs, 100, 4);
      g := G(seq(NFRAMES, i => if i < end then Reserved else Taken), [], seq(NSLOTS, i => (0, 0)));
      this.alpha, this.beta := alpha, beta;
      new;
      SwapInit();
      BootInv(m, g);
      assert UpFrame(Addr(end)) == end && DownFrame(Addr(NFRAMES)) == NFRAMES;
      FreeRange(Addr(end), Addr(NFRAMES));
    }

    /** A machine in a given state. */
    constructor At(m: M, ghost g: G, alpha: nat, beta: nat)
      requires Inv(m, g)
      ensures Valid() && this.m == m && this.g == g
    {
      this.m, this.g, this.alpha, this.beta := m, g, alpha, beta;
    }

    method SwapInit()
      requires |m.slots| == NSLOTS
      modifies this`m
      ensures |m.slots| == NSLOTS && m == old(m).(slots := m.slots) && forall s :: 0 <= s < NSLOTS ==>
        m.slots[s] == Slot(0, true)
    {
      var i := 0;
      while i < NSLOTS
        invariant 0 <= i <= NSLOTS == |m.slots| && m == old(m).(slots := m.slots)
        invariant forall s :: 0 <= s < i ==> m.slots[s] == Slot(0, true)
      {
        m := m.(slots := m.slots[i := Slot(0, true)]);
        i := i + 1;
      }
    }

    /** freerange: every whole page between the two addresses goes to the free list. */
    method FreeRange(from: nat, to: nat)
      requires Valid() && Addr(m.end) <= from && KERNBASE <= to <= Addr(NFRAMES)
      requires forall f :: UpFrame(from) <= f < DownFrame(to) ==> g.own[f].Taken?
      modifies this
      ensures Valid() && m == old(m).(data := m.data, tabs := m.tabs, link := m.link, head := m.head)
      ensures g == old(g).(own := g.own, free := g.free)
      ensures forall f :: 0 <= f < NFRAMES ==>
        if UpFrame(from) <= f < DownFrame(to) then g.own[f].Free? else g.own[f] == old(g).own[f]
      ensures |g.free| == |old(g).free| + if UpFrame(from) < DownFrame(to) then DownFrame(to) - UpFrame(from) else 0
    {
      hide Inv, FrameAt, Addr, UpFrame, DownFrame, ListOk, Quiet, Evicts;
      Aligned(from, 0, to, m.end);
      var p := (from + PGSIZE - 1) / PGSIZE * PGSIZE;
      ghost var lo, hi := UpFrame(from), DownFrame(to);
      ghost var f := lo;
      Shapes(m, g);
      while p + PGSIZE <= to
        invariant lo <= f && (f <= hi || f == lo) && p == Addr(f) && Inv(m, g) && Shaped(m, g) && FreeOk(m, g)
        invariant m == old(m).(data := m.data, tabs := m.tabs, link := m.link, head := m.head)
        invariant g == old(g).(own := g.own, free := g.free)
        invariant forall x :: 0 <= x < NFRAMES ==> if lo <= x < f then g.own[x].Free? else g.own[x] == old(g).own[x]
        invariant |g.free| == |old(g).free| + f - lo
        decreases hi - f
      {
        Aligned(from, f, to, m.end);
        NotReserved(m, g, f);
        FreeKeeps(m, g, f);
        var panic := KFree(p);
        f := f + 1;
        p := p + PGSIZE;
      }
      Aligned(from, f, to, m.end);
    }

    // The free list (kalloc.c).

    /**
     * kfree: true is the panic for an address that is not an allocatable page. The list is
     * kept exactly if the frame was not on it; the source does not test for that.
     */
    method KFree(a: nat) returns (panic: bool)
      requires Shaped(m, g) && FreeOk(m, g)
      modifies this
      ensures panic <==> !(a % PGSIZE == 0 && Addr(m.end) <= a < Addr(NFRAMES))
      ensures panic ==> m == old(m) && g == old(g)
      ensures !panic ==> FrameAt(a) < NFRAMES && m == Freed(old(m), FrameAt(a)) && g == FreedG(old(g), FrameAt(a))
      ensures !panic ==> m.head == a && m.link[FrameAt(a)] == old(m).head
      ensures !panic ==> forall i :: 4 <= i < PGSIZE ==> m.data[FrameAt(a)][i] == 1
      ensures Shaped(m, g) && (panic || !old(g).own[FrameAt(a)].Free? ==> FreeOk(m, g))
      ensures !panic && old(g).own[FrameAt(a)].Free? ==> forall g': G :: Shaped(m, g') ==> !FreeOk(m, g')
    {
      if a % PGSIZE != 0 || a < Addr(m.end) || a - KERNBASE >= NFRAMES * PGSIZE { return true; }
      var f := FrameAt(a);
      NotEnd(m, g, f);
      assert Addr(f) == a;
      FreedFrame(m, g, f);
      hide FreeOk, Addr, FrameAt, Freed, FreedG;
      if g.own[f].Free? {
        DoubleFrees(m, g, f);
      } else {
        FreeListGrows(m, g, f);
      }
      m := Freed(m, f);
      g := FreedG(g, f);
      return false;
    }

    /** countpages walks the linked list. */
    method CountPages() returns (n: nat)
      requires Shaped(m, g) && FreeOk(m, g)
      ensures n == |g.free|
    {
      ListHead(m, g);
      hide FreeOk, FrameAt, Addr, Below;
      n := 0;
      var r := m.head;
      while r != 0
        invariant n <= |g.free| && r == Below(g.free, |g.free| - n)
        decreases |g.free| - n
      {
        ListLink(m, g, |g.free| - n - 1);
        r := m.link[FrameAt(r)];
        n := n + 1;
      }
    }

    // Slots.

    /** findslot: the lowest free slot, now used; -1 when all are used. */
    method FindSlot() returns (s: int)
      requires |m.slots| == NSLOTS
      modifies this`m
      ensures s < 0 ==> m == old(m) && forall i :: 0 <= i < NSLOTS ==> !m.slots[i].isFree
      ensures s >= 0 ==>
        && s < NSLOTS && old(m).slots[s].isFree && (forall i :: 0 <= i < s ==> !old(m).slots[i].isFree)
        && m == old(m).(slots := old(m).slots[s := old(m).slots[s].(isFree := false)])
    {
      var i := 0;
      while i < NSLOTS
        invariant 0 <= i <= NSLOTS && m == old(m)
        invariant forall j :: 0 <= j < i ==> !m.slots[j].isFree
      {
        if m.slots[i].isFree {
          m := m.(slots := m.slots[i := m.slots[i].(isFree := false)]);
          return i;
        }
        i := i + 1;
      }
      return -1;
    }

    method FreeSlot(s: int)
      requires |m.slots| == NSLOTS
      modifies this`m
      ensures m == if 0 <= s < NSLOTS then old(m).(slots := old(m).slots[s := Slot(0, true)]) else old(m)
    {
      if s < 0 || s >= NSLOTS { return; }
      m := m.(slots := m.slots[s := Slot(0, true)]);
    }

    /** The block loop of swappageout: page goes to the eight blocks of slot s. */
    method StorePage(s: nat, page: seq<nat>)
      requires DiskShaped(m.disk) && s < NSLOTS && |page| == PGSIZE
      modifies this`m
      ensures DiskShaped(m.disk) && m == old(m).(disk := m.disk) && SlotPage(m.disk, s) == page
      ensures forall i :: 0 <= i < 8 ==> m.disk[2 + 8 * s + i] == page[i * BSIZE..(i + 1) * BSIZE]
      ensures forall s' :: 0 <= s' < NSLOTS && s' != s ==> SlotPage(m.disk, s') == SlotPage(old(m).disk, s')
    {
      var blockno := SWAPSTART + s * SLOTBLOCKS;
      var i := 0;
      while i < SLOTBLOCKS
        invariant 0 <= i <= SLOTBLOCKS && m == old(m).(disk := m.disk) && Stored(old(m).disk, m.disk, s, page, i)
      {
        m := m.(disk := m.disk[blockno + i := page[i * BSIZE..(i + 1) * BSIZE]]);
        i := i + 1;
      }
      StoredPage(old(m).disk, m.disk, s, page);
    }

    /** The block loop of swappage_in: the page held by slot s. */
    method LoadPage(s: nat) returns (page: seq<nat>)
      requires DiskShaped(m.disk) && s < NSLOTS
      ensures page == SlotPage(m.disk, s)
      ensures forall i :: 0 <= i < 8 ==> page[i * BSIZE..(i + 1) * BSIZE] == m.disk[2 + 8 * s + i]
    {
      page := [];
      var i := 0;
      while i < SLOTBLOCKS
        invariant 0 <= i <= SLOTBLOCKS && page == SlotPage(m.disk, s)[..i * BSIZE]
      {
        var b := m.disk[SWAPSTART + s * SLOTBLOCKS + i];
        assert forall j :: 0 <= j < BSIZE ==> b[j] == SlotPage(m.disk, s)[i * BSIZE + j];
        page := page + b;
        i := i + 1;
      }
    }

    // Choosing victims.

    /** findproc: the process with the most resident pages, the lowest pid among those, the first in the table among
        those. */
    method FindProc() returns (found: bool, victim: nat)
      ensures found ==> IsVictim(m.procs, victim)
      ensures !found ==> NoVictim(m.procs)
      ensures !found <==> forall q :: 0 <= q < |m.procs| && m.procs[q].state != Unused && m.procs[q].pid >= 1 ==>
        m.procs[q].rss == 0
      ensures found ==> victim < |m.procs| && m.procs[victim].state != Unused && m.procs[victim].pid >= 1
      ensures found ==> forall q :: 0 <= q < |m.procs| && m.procs[q].state != Unused && m.procs[q].pid >= 1 ==>
        && m.procs[q].rss <= m.procs[victim].rss
        && (m.procs[q].rss == m.procs[victim].rss ==> m.procs[victim].pid <= m.procs[q].pid)
        && (m.procs[q].rss == m.procs[victim].rss && m.procs[q].pid == m.procs[victim].pid ==> victim <= q)
    {
      found, victim := false, 0;
      var best := 0;
      var p := 0;
      while p < |m.procs|
        invariant 0 <= p <= |m.procs|
        invariant !found ==> best == 0 && forall q :: 0 <= q < p ==> !Candidate(m.procs[q])
        invariant found ==>
          && victim < p && Candidate(m.procs[victim]) && best == m.procs[victim].rss
          && (forall q :: 0 <= q < p && Candidate(m.procs[q]) ==> Prefers(m.procs[victim], m.procs[q]))
          && forall q :: 0 <= q < victim && Candidate(m.procs[q]) ==> !Prefers(m.procs[q], m.procs[victim])
      {
        var q := m.procs[p];
        if q.state != Unused && q.pid >= 1 {
          if q.rss > best || (q.rss == best && found && q.pid < m.procs[victim].pid) {
            best, victim, found := q.rss, p, true;
          }
        }
        p := p + 1;
      }
    }

    /** findpage's first and last loop: the lowest idle page. */
    method FirstIdle(d: nat) returns (found: bool, v: nat)
      requires TabsShaped(m.tabs) && d < NFRAMES
      ensures found ==> LowestIdle(m.tabs, d, v)
      ensures !found ==> NoneIdle(m.tabs, d)
    {
      v := 0;
      while v < UPAGES
        invariant v <= UPAGES && forall u :: 0 <= u < v ==> !Idle(Pte(m.tabs, d, u))
      {
        if Idle(Pte(m.tabs, d, v)) { return true, v; }
        v := v + 1;
      }
      return false, 0;
    }

    /** findpage's middle loop: clear Accessed on every present user page of d. */
    method ClearAll(d: nat)
      requires Valid() && d < NFRAMES && g.own[d].Dir?
      modifies this`m
      ensures Still(old(m), g, m, g) && AccessCleared(old(m).tabs, m.tabs, d, UPAGES) && m == old(m).(tabs := m.tabs)
      ensures DirRows(old(m), g, m) && CalmBut(old(m), g, m, d)
    {
      StillRefl(m, g);
      Shapes(m, g);
      CalmRefl(m, g, d);
      var v := 0;
      assert AccessCleared(m.tabs, m.tabs, d, 0);
      hide Inv, Still, AccessCleared, ClearAccessed, CalmBut;
      while v < UPAGES
        invariant 0 <= v <= UPAGES && Still(old(m), g, m, g) && Inv(m, g) && Shaped(m, g)
        invariant AccessCleared(old(m).tabs, m.tabs, d, v) && m == old(m).(tabs := m.tabs) && DirRows(old(m), g, m)
        invariant CalmBut(old(m), g, m, d)
      {
        ghost var m0 := m;
        if Evictable(Pte(m.tabs, d, v)) {
          PteHas(m.tabs, d, v);
          m := m.(tabs := SetPte(m.tabs, d, v, ClearAccessed(Pte(m.tabs, d, v))));
          ClearStill(m0, g, m, d, v);
          StillTrans(old(m), g, m0, g, m, g);
          CalmTrans(old(m), g, m0, g, m, d);
        }
        ClearedNext(old(m).tabs, m0.tabs, m.tabs, d, v);
        v := v + 1;
      }
    }

    /**
     * findpage: the lowest page of d that is idle in the resulting tables; the tables
     * change only when no page was idle, and then exactly the Accessed bits are cleared.
     */
    method FindPage(d: nat) returns (found: bool, v: nat)
      requires Valid() && d < NFRAMES && g.own[d].Dir?
      modifies this`m
      ensures Still(old(m), g, m, g) && m == old(m).(tabs := m.tabs) && DirRows(old(m), g, m)
      ensures found ==> LowestIdle(m.tabs, d, v)
      ensures !found ==> NoneEvictable(old(m).tabs, d) && NoneEvictable(m.tabs, d)
      ensures Picked(old(m).tabs, m.tabs, d) && CalmBut(old(m), g, m, d)
    {
      hide Inv, Still, LowestIdle, NoneIdle, NoneEvictable, AccessCleared, CalmBut;
      StillRefl(m, g);
      Shapes(m, g);
      CalmRefl(m, g, d);
      found, v := FirstIdle(d);
      if found { return; }
      ClearAll(d);
      ClearedIdle(old(m).tabs, m.tabs, d);
      StillShaped(old(m), g, m, g);
      found, v := FirstIdle(d);
    }

    // Moving pages out.

    /** swappageout: the page goes to the lowest free slot and its entry to that slot. */
    method SwapPageOut(d: nat, v: nat, f: nat) returns (r: int)
      requires Valid() && d < NFRAMES && g.own[d].Dir? && v < UPAGES
      requires Present(Pte(m.tabs, d, v)) ==> User(Pte(m.tabs, d, v)) && f == FrameOf(Pte(m.tabs, d, v))
      modifies this
      ensures Still(old(m), old(g), m, g) && (r == 0 || r == -1)
      ensures r == 0 ==> Present(Pte(old(m).tabs, d, v)) && OutOf(old(m), old(g), m, g, d, v)
      ensures r == -1 ==> g == old(g) && m == old(m).(slots := m.slots)
      ensures r == -1 <==> !Present(Pte(old(m).tabs, d, v)) || NoSlot(old(m))
      ensures NoSlot(old(m)) ==> m == old(m)
    {
      hide FreeOk, TabsOk, SlotsOk, ProcsOk, Still, OutOk, SlotPage, SwapEntry;
      StillRefl(m, g);
      var s := FindSlot();
      if s < 0 { return -1; }
      var e := Pte(m.tabs, d, v);
      if !Present(e) {
        SlotFilled(old(m), g, m, s);
        return -1;
      }
      m := m.(slots := m.slots[s := m.slots[s].(perm := Flags(e))]);
      assert PageOk(old(m).tabs, g.own, d, v);
      StorePage(s, m.data[f]);
      m := m.(tabs := SetPte(m.tabs, d, v, SwapEntry(s, e)));
      assert OutReady(old(m), g, d, v, s, m.disk);
      assert m == OutM(old(m), g, d, v, s, m.disk);
      OutTabs(old(m), g, d, v, s, m.disk);
      g := OutG(old(m), g, d, v, s, m.disk);
      OutKeeps(old(m), old(g), m, g, d, v, s);
      StillDef(old(m), old(g), m, g);
      OutOfSlot(old(m), old(g), m, g, d, v, s);
      return 0;
    }

    /** After the page of (d, v) went out: rss drops and the frame is freed. */
    method Release(victim: nat, f: nat, ghost m0: M, ghost g0: G, ghost d: nat, ghost v: nat)
      requires Still(m0, g0, m, g) && OutOf(m0, g0, m, g, d, v) && f == FrameOf(Pte(m0.tabs, d, v))
      requires victim < |m.procs| && m.procs[victim].state == Ready && g0.own[d].Dir?
      modifies this
      ensures Still(m0, g0, m, g) && OnlyFrees(m0, g0, m, g) && |g.free| == |g0.free| + 1 && m.slots == old(m).slots
      ensures Departed(m0.tabs, m.tabs, d, v) && CalmBut(m0, g0, m, d)
      ensures m.threshold == old(m).threshold && m.npages == old(m).npages && m.procs == Less(old(m).procs, victim, 1)
    {
      hide Inv, Still, OutOf, Pte, Evicts, Quiet, Addr, FrameAt, Less, FreeOk, OnlyFrees, Departed, CalmBut;
      ghost var m1, g1 := m, g;
      StillShaped(m0, g0, m, g);
      LessStill(m, g, victim);
      m := m.(procs := Less(m.procs, victim, 1));
      StillShaped(m1, g, m, g);
      EvictedStill(m0, g0, m1, g1, m, f, d, v);
      DepartedFreed(m0, g0, m1, g1, m, f, d, v);
      OutHeld(m0, g0, m1, g1, d, v);
      NotReserved(m, g, f);
      var panic := KFree(Addr(f));
    }

    /** One turn of swapout's loop: the ghosts are the tables findpage left and the page it chose. */
    method EvictOne(victim: nat, d: nat) returns (found: bool, moved: bool, ghost tabs: Tables, ghost page: nat)
      requires Valid() && d < NFRAMES && g.own[d].Dir? && victim < |m.procs| && m.procs[victim].state == Ready
      modifies this
      ensures Still(old(m), old(g), m, g) && OnlyFrees(old(m), old(g), m, g)
      ensures m.threshold == old(m).threshold && m.npages == old(m).npages
      ensures found <==> !NoneEvictable(old(m).tabs, d)
      ensures moved <==> found && !NoSlot(old(m))
      ensures m.procs == Less(old(m).procs, victim, if moved then 1 else 0)
      ensures Turn(old(m), old(g), m, g, d, moved, tabs, page)
      ensures !moved ==> g == old(g) && Drained(m, d) && Searched(m.tabs, d)
      ensures found && !moved ==> NoSlot(m)
    {
      hide Inv, Still, OutOf, Pte, NoneIdle, NoneEvictable, Evicts, Quiet, OnlyFrees, Less, CalmBut, Departed,
           AccessCleared, LowestIdle, FreeSlots, Searched;
      LessTwice(m.procs, victim, 0, 1);
      StillRefl(m, g);
      Shapes(m, g);
      OnlyFreesRefl(m, g);
      var v;
      found, v := FindPage(d);
      page, tabs := v, m.tabs;
      OnlyFreesRows(old(m), old(g), m);
      if !found {
        SearchedNone(m.tabs, d);
        return false, false, m.tabs, v;
      }
      SearchedFound(m.tabs, d, v);
      ghost var m1, g1 := m, g;
      StillShaped(old(m), old(g), m, g);
      SomeEvictable(old(m).tabs, m1.tabs, d, v);
      IdleFrame(m.tabs, d, v);
      var f := FrameOf(Pte(m.tabs, d, v));
      var r := SwapPageOut(d, v, f);
      if r != 0 {
        StillTrans(old(m), old(g), m1, g1, m, g);
        OnlyFreesRows(old(m), old(g), m);
        return true, false, m.tabs, v;
      }
      StillShaped(m1, g1, m, g);
      StillProcs(m1, g1, m, g, victim);
      OutCounters(m1, g1, m, g, d, v);
      Release(victim, f, m1, g1, d, v);
      StillTrans(old(m), old(g), m1, g1, m, g);
      OnlyFreesTrans(old(m), old(g), m1, g1, m, g);
      CalmTrans(old(m), old(g), m1, g1, m, d);
      return true, true, m1.tabs, v;
    }

    /** swapout: the first Batch pages of the victim, in order, leave memory; nobody's memory changes. */
    method SwapOut()
      requires Valid()
      modifies this
      ensures Still(old(m), old(g), m, g) && OnlyFrees(old(m), old(g), m, g)
      ensures m.threshold == old(m).threshold && m.npages == old(m).npages
      ensures SwapDone(old(m), old(g), m, g)
    {
      hide Inv, Still, OnlyFrees, Pte, NoneEvictable, Less, SwapDone, NoSlot, IsVictim, FreeOk, Evicted, Turn,
           LowestIdle, Candidate, Searched;
      StillRefl(m, g);
      Shapes(m, g);
      OnlyFreesRefl(m, g);
      assert m.npages >= 1 by {
        StillShaped(m, g, m, g);
      }
      var found, victim := FindProc();
      if !found {
        NoneDone(m, g);
        return;
      }
      VictimDir(m, g, victim);
      var d := m.procs[victim].pgdir;
      LessTwice(m.procs, victim, 0, 0);
      var swapped, attempts := 0, 0;
      ghost var gone := {};
      EvictedNone(m, g, d);
      while swapped < m.npages && attempts < m.npages * 2
        invariant Still(old(m), old(g), m, g) && OnlyFrees(old(m), old(g), m, g) && Inv(m, g)
        invariant d < NFRAMES && |g.own| == NFRAMES && g.own[d].Dir? && victim < |m.procs|
        invariant m.procs[victim].state == Ready
        invariant m.threshold == old(m).threshold && m.npages == old(m).npages
        invariant |gone| == swapped <= m.npages && Evicted(old(m), old(g), m, g, d, gone) && swapped <= attempts
        invariant m.procs == Less(old(m).procs, victim, swapped)
        invariant swapped < attempts ==> NoSlot(m) && Searched(m.tabs, d)
        decreases m.npages * 2 - attempts
      {
        ghost var m1, g1 := m, g;
        var more, moved;
        ghost var tabs, v;
        more, moved, tabs, v := EvictOne(victim, d);
        EvictedTurn(old(m), old(g), m1, g1, m, g, d, gone, moved, tabs, v);
        StillTrans(old(m), old(g), m1, g1, m, g);
        OnlyFreesTrans(old(m), old(g), m1, g1, m, g);
        StillShaped(m1, g1, m, g);
        StillDir(m1, g1, m, g, d);
        StillProcs(m1, g1, m, g, victim);
        LessTwice(old(m).procs, victim, swapped, if moved then 1 else 0);
        if !more { break; }
        SlotsGone(m1, g1, m, g);
        if moved { swapped, gone := swapped + 1, gone + {v}; }
        attempts := attempts + 1;
      }
      SwapEnds(old(m), old(g), m, g, victim, gone);
    }

    /** checkAswap: swap only when memory is short, then adapt the policy within its bounds. */
    method CheckASwap()
      requires Valid()
      modifies this
      ensures Still(old(m), old(g), m, g) && OnlyFrees(old(m), old(g), m, g)
      ensures |old(g).free| > old(m).threshold ==> m == old(m) && g == old(g)
      ensures |old(g).free| <= old(m).threshold ==>
        && m.threshold == Lowered(old(m).threshold, beta) && m.npages == Raised(old(m).npages, alpha)
        && Adapted(old(m).threshold, m.threshold, beta, old(m).npages, m.npages, alpha)
        && SwapDone(old(m), old(g), m, g)
    {
      hide Inv, Still, OnlyFrees, SwapDone, FreeOk;
      StillRefl(m, g);
      Shapes(m, g);
      OnlyFreesRefl(m, g);
      var n := CountPages();
      if n <= m.threshold {
        SwapOut();
        ghost var m1 := m;
        StillShaped(old(m), old(g), m, g);
        m := m.(threshold := Lowered(m.threshold, beta));
        m := m.(npages := Raised(m.npages, alpha));
        SwapDonePolicy(old(m), old(g), m1, g, m);
        PolicySettles(m1.threshold, m1.npages, alpha, beta);
        PolicyAdapts(m1.threshold, m1.npages, alpha, beta);
        CountersKeep(m1, g, m);
        StillDef(m1, g, m, g);
        StillTrans(old(m), old(g), m1, g, m, g);
        OnlyFreesRows(m1, g, m);
        OnlyFreesTrans(old(m), old(g), m1, g, m, g);
      }
    }

    /**
     * kalloc: the first free frame, after a swapout when there is none; 0 exactly when that
     * can free nothing. The pages that leave memory are exactly those that were Leaving.
     */
    method KAlloc() returns (a: nat)
      requires Valid()
      modifies this
      ensures Still(old(m), old(g), m, g)
      ensures a == 0 <==> old(g).free == [] && Stuck(old(m))
      ensures a == 0 ==> g.free == [] && Stuck(m) && OnlyFrees(old(m), old(g), m, g)
      ensures a != 0 ==> Handed(old(m), old(g), m, g, a)
      ensures old(g).free != [] ==> m == Popped(old(m)) && g == PoppedG(old(g))
      ensures LeftOnly(old(m), old(g), m) && Gives(old(m), old(g), if a == 0 then 0 else |g.free| + 1)
      ensures a != 0 ==> |FreeSlots(m.slots)| + |g.free| + 1 == |FreeSlots(old(m).slots)| + |old(g).free|
    {
      hide Inv, Still, OnlyFrees, Popped, PoppedG, Handed, FrameAt, FreeOk, SwapDone, Stuck, LeftOnly, Gives, FreeSlots;
      StillRefl(m, g);
      Shapes(m, g);
      OnlyFreesRefl(m, g);
      HeadEmpty(m, g);
      if m.head == 0 {
        CheckASwap();
        StillShaped(old(m), old(g), m, g);
        SwapSlots(old(m), old(g), m, g);
        SwapLeft(old(m), old(g), m, g);
        SwapStuck(old(m), old(g), m, g);
        HeadEmpty(m, g);
        if m.head == 0 {
          ghost var m1, g1 := m, g;
          CheckASwap();
          StillShaped(m1, g1, m, g);
          SwapLeft(m1, g1, m, g);
          SwapStuck(m1, g1, m, g);
          StillDirs(old(m), old(g), m1, g1);
          LeftTwice(old(m), old(g), m1, g1, m);
          StillTrans(old(m), old(g), m1, g1, m, g);
          OnlyFreesTrans(old(m), old(g), m1, g1, m, g);
        }
      } else {
        CalmRefl(m, g, NFRAMES);
        LeftNone(m, g, m);
        GivesList(m, g);
      }
      StillShaped(old(m), old(g), m, g);
      HeadEmpty(m, g);
      a := m.head;
      if a != 0 {
        StillPop(old(m), old(g), m, g);
        PoppedHanded(old(m), old(g), m, g);
        StillDirs(old(m), old(g), m, g);
        PopCalm(m, g);
        LeftCalm(old(m), old(g), m, g, Popped(m));
        PoppedLength(g);
        m := Popped(m);
        g := PoppedG(g);
      }
    }

    /** The block loop of duplicateslot. */
    method CopySlot(from: nat, to: nat)
      requires DiskShaped(m.disk) && from < NSLOTS && to < NSLOTS && from != to
      modifies this`m
      ensures DiskShaped(m.disk) && m == old(m).(disk := m.disk) && SlotPage(m.disk, to) == SlotPage(old(m).disk, from)
      ensures forall s :: 0 <= s < NSLOTS && s != to ==> SlotPage(m.disk, s) == SlotPage(old(m).disk, s)
    {
      ghost var page := SlotPage(m.disk, from);
      var i := 0;
      while i < SLOTBLOCKS
        invariant 0 <= i <= SLOTBLOCKS && m == old(m).(disk := m.disk) && Stored(old(m).disk, m.disk, to, page, i)
      {
        var b := m.disk[SWAPSTART + from * SLOTBLOCKS + i];
        assert b == page[i * BSIZE..(i + 1) * BSIZE] by {
          BlockOf(old(m).disk, from, i);
        }
        m := m.(disk := m.disk[SWAPSTART + to * SLOTBLOCKS + i := b]);
        i := i + 1;
      }
      StoredPage(old(m).disk, m.disk, to, page);
    }

    /** duplicateslot's swapouts: they come only when no slot is free, so they move nothing. */
    method SwapInVain()
      requires Valid() && NoSlot(m)
      modifies this
      ensures Still(old(m), old(g), m, g) && OnlyFrees(old(m), old(g), m, g) && NoSlot(m)
      ensures Resident(old(m), old(g), m) && |g.free| == |old(g).free| && m.threshold >= 1
      ensures |old(g).free| <= old(m).threshold ==> Vain(old(m), old(g), m)
    {
      hide Inv, Still, OnlyFrees, SwapDone, FreeOk, Vain;
      StillRefl(m, g);
      Shapes(m, g);
      CalmRefl(m, g, NFRAMES);
      CalmResident(m, g, m);
      CheckASwap();
      StillShaped(old(m), old(g), m, g);
      SlotsGone(old(m), old(g), m, g);
      if |old(g).free| <= old(m).threshold {
        SwapNoSlot(old(m), old(g), m, g);
      }
    }

    /** duplicateslot: a fresh slot with the same page and flags; -1 when parent holds nothing or no slot is free. */
    method DuplicateSlot(parent: int) returns (r: int)
      requires Valid()
      modifies this
      ensures Still(old(m), old(g), m, g) && OnlyFrees(old(m), old(g), m, g)
      ensures Resident(old(m), old(g), m) && |g.free| == |old(g).free|
      ensures r == -1 || r >= 0
      ensures r == -1 <==> !(0 <= parent < NSLOTS && !old(m).slots[parent].isFree) || NoSlot(old(m))
      ensures r >= 0 ==>
        && 0 <= parent < NSLOTS && !old(m).slots[parent].isFree && r < NSLOTS && old(m).slots[r].isFree
        && (forall s :: 0 <= s < r ==> !old(m).slots[s].isFree) && g == old(g) && m.tabs == old(m).tabs
        && m.slots[r] == old(m).slots[parent].(isFree := false)
        && SlotPage(m.disk, r) == SlotPage(old(m).disk, parent)
        && Unnamed(m.tabs, g.own, r)
      ensures 0 <= parent < NSLOTS && !old(m).slots[parent].isFree && NoSlot(old(m)) && |old(g).free| <= 1 ==>
        Vain(old(m), old(g), m)
    {
      hide Inv, Still, OnlyFrees, SlotPage, Resident, Unnamed, Pte, Vain, FreeOk;
      StillRefl(m, g);
      StillShaped(m, g, m, g);
      Shapes(m, g);
      OnlyFreesRefl(m, g);
      CalmRefl(m, g, NFRAMES);
      CalmResident(m, g, m);
      if parent < 0 || parent >= NSLOTS || m.slots[parent].isFree { return -1; }
      ghost var m1, g1 := m, g;
      var child := FindSlot();
      if child < 0 {
        SwapInVain();
        StillShaped(old(m), old(g), m, g);
        StillDirs(old(m), old(g), m, g);
        m1, g1 := m, g;
        child := FindSlot();
        if child < 0 {
          SwapInVain();
          StillTrans(old(m), old(g), m1, g1, m, g);
          OnlyFreesTrans(old(m), old(g), m1, g1, m, g);
          ResidentTrans(old(m), old(g), m1, g1, m);
          if |old(g).free| <= 1 {
            VainTwice(old(m), old(g), m1, g1, m);
          }
          StillShaped(m1, g1, m, g);
          m1, g1 := m, g;
          child := FindSlot();
          if child < 0 { return -1; }
        }
      }
      StillKeepsSlot(old(m), old(g), m1, g1, parent);
      StillShaped(old(m), old(g), m1, g1);
      FreeUnnamed(m1, g1, child);
      m := m.(slots := m.slots[child := m.slots[child].(perm := m.slots[parent].perm)]);
      CopySlot(parent, child);
      SlotFilled(m1, g1, m, child);
      StillTrans(old(m), old(g), m1, g1, m, g);
      OnlyFreesRows(m1, g1, m);
      OnlyFreesTrans(old(m), old(g), m1, g1, m, g);
      SameResident(old(m), old(g), m1, m);
      return child;
    }

    /** swapFree: the slots that the pages of d name, and no others, become free; d is dead. */
    method SwapFree(d: nat)
      requires Valid() && (d != 0 ==> d < NFRAMES && g.own[d] == Dir(true))
      modifies this
      ensures d == 0 ==> m == old(m) && g == old(g)
      ensures Valid() && m == old(m).(slots := m.slots)
      ensures d != 0 ==> g == old(g).(own := old(g).own[d := Dir(false)])
      ensures d != 0 ==> forall s :: 0 <= s < NSLOTS ==>
        m.slots[s] == if NamedBelow(old(m), old(g), d, s, UPAGES) then Slot(0, true) else old(m).slots[s]
    {
      hide Inv, NamedBelow, Names, Pte;
      if d == 0 { return; }
      Shapes(m, g);
      DirDies(m, g, d);
      g := g.(own := g.own[d := Dir(false)]);
      NamedNone(m, old(g), d);
      var v := 0;
      while v < UPAGES
        invariant 0 <= v <= UPAGES && Inv(m, g) && Shaped(m, g) && m == old(m).(slots := m.slots)
        invariant g == old(g).(own := old(g).own[d := Dir(false)])
        invariant forall s :: 0 <= s < NSLOTS ==>
          m.slots[s] == if NamedBelow(old(m), old(g), d, s, v) then Slot(0, true) else old(m).slots[s]
      {
        NamedStep(old(m), old(g), d, v);
        var e := Pte(m.tabs, d, v);
        if !Present(e) && e != 0 {
          var s := FrameOf(e);
          DeadUnnamed(old(m), old(g), m, g, d, v, s);
          SlotReleased(m, g, s);
          FreeSlot(s);
        }
        OneName(old(m), old(g), d, v);
        v := v + 1;
      }
    }
  }
}
