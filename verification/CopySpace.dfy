/** Copying an address space for fork (copyuvm in vm.c). */
module CopySpace {
  import opened Paging
  import opened PageSteps
  import opened Victims
  import opened PageSwap
  import opened VmSteps
  import opened Vm
  import opened UserMem

  /** What a frame holds after kfree or kalloc: no user data. */
  ghost predicate Spoilt(page: seq<nat>) {
    page == Filled(5, PGSIZE) || exists w: nat :: page == Junk(w)
  }

  /** Page v of the child d against page v of the parent p. */
  ghost predicate CopiedAt(m: M, g: G, p: nat, d: nat, v: nat, lost: set<nat>)
    requires Shaped(m, g) && p < NFRAMES && d < NFRAMES && v < UPAGES
  {
    var a, b := Seen(m, g, p, v), Seen(m, g, d, v);
    if v in lost then a.Mapped? && b.Mapped? && a.perm == b.perm && Spoilt(b.bytes) else a == b
  }

  /** The machine when copyuvm was called, and the first writable kernel page. */
  datatype Origin = Origin(m: M, g: G, data: nat)

  /** The child d has been given pages below i; what others see is as it was at x. */
  ghost predicate Copying(x: Origin, m: M, g: G, p: nat, d: nat, i: nat, lost: set<nat>) {
    && NewDir(x.m, x.g, m, g, d) && p < NFRAMES && x.g.own[p] == Dir(true) && g.own[p] == Dir(true) && p != d
    && i <= UPAGES
    && Shaped(m, g) && KernelMapped(m.tabs, d, x.data, VPAGES)
    && (forall v :: 0 <= v < i ==> CopiedAt(m, g, p, d, v, lost))
    && (forall v :: i <= v < UPAGES ==> Seen(m, g, d, v) == Unmapped)
    && forall v :: v in lost ==> v < i
  }

  lemma KernelKept(m1: M, g1: G, m2: M, g2: G, h: Hole, d: nat, data: nat)
    requires Quiet(m1, g1, m2, g2, h, NFRAMES) && h.hi <= UPAGES && d < NFRAMES && g1.own[d].Dir?
    requires KernelMapped(m1.tabs, d, data, VPAGES)
    ensures KernelMapped(m2.tabs, d, data, VPAGES)
  {
    hide Pte, PdeKept, OwnerKept, KernelEntry;
    forall v | UPAGES <= v < VPAGES ensures Pte(m2.tabs, d, v) == Pte(m1.tabs, d, v) {
      assert PageKept(m1, g1, m2, g2, d, v);
    }
  }

  lemma CopyingQuiet(x: Origin, m1: M, g1: G, m2: M, g2: G, p: nat, d: nat, i: nat, lost: set<nat>)
    requires Copying(x, m1, g1, p, d, i, lost) && Quiet(m1, g1, m2, g2, NOWHERE, NFRAMES) && Inv(m2, g2)
    ensures Copying(x, m2, g2, p, d, i, lost)
  {
    hide FreeOk, TabsOk, PagesOk, SlotsOk, ProcsOk, Seen, PdeKept, Pte, Spoilt, KernelMapped;
    KernelKept(m1, g1, m2, g2, NOWHERE, d, x.data);
    assert OwnerKept(g1, g2, NOWHERE, NFRAMES, p) && OwnerKept(g1, g2, NOWHERE, NFRAMES, d);
    QuietAny(m1, g1, m2, g2, Hole(d, 0, VPAGES), NFRAMES, NFRAMES);
    QuietTrans(x.m, x.g, m1, g1, m2, g2, Hole(d, 0, VPAGES), NFRAMES, NFRAMES);
    forall v | 0 <= v < UPAGES
      ensures Seen(m2, g2, p, v) == Seen(m1, g1, p, v) && Seen(m2, g2, d, v) == Seen(m1, g1, d, v)
    {
      assert PageKept(m1, g1, m2, g2, p, v) && PageKept(m1, g1, m2, g2, d, v);
    }
    assert Shaped(m2, g2) && NewDir(x.m, x.g, m2, g2, d);
    hide Quiet, Inv;
    forall v | 0 <= v < i ensures CopiedAt(m2, g2, p, d, v, lost) {
      assert CopiedAt(m1, g1, p, d, v, lost);
    }
  }

  /** One more page of the child. */
  lemma CopyingNext(x: Origin, m1: M, g1: G, m2: M, g2: G, p: nat, d: nat, i: nat, lost: set<nat>, more: set<nat>)
    requires Copying(x, m1, g1, p, d, i, lost) && i < UPAGES && Inv(m2, g2) && g2.own[d] == Dir(true)
    requires Quiet(m1, g1, m2, g2, Hole(d, i, i + 1), NFRAMES)
    requires more == lost || more == lost + {i}
    requires CopiedAt(m2, g2, p, d, i, more)
    ensures Copying(x, m2, g2, p, d, i + 1, more)
  {
    hide FreeOk, TabsOk, PagesOk, SlotsOk, ProcsOk, Seen, PdeKept, Pte, Spoilt, KernelMapped;
    KernelKept(m1, g1, m2, g2, Hole(d, i, i + 1), d, x.data);
    assert OwnerKept(g1, g2, Hole(d, i, i + 1), NFRAMES, p);
    QuietWiden(m1, g1, m2, g2, Hole(d, i, i + 1), Hole(d, 0, VPAGES), NFRAMES);
    QuietTrans(x.m, x.g, m1, g1, m2, g2, Hole(d, 0, VPAGES), NFRAMES, NFRAMES);
    forall v | 0 <= v < UPAGES
      ensures Seen(m2, g2, p, v) == Seen(m1, g1, p, v) && (v != i ==> Seen(m2, g2, d, v) == Seen(m1, g1, d, v))
    {
      assert PageKept(m1, g1, m2, g2, p, v) && (v != i ==> PageKept(m1, g1, m2, g2, d, v));
    }
    assert Shaped(m2, g2) && NewDir(x.m, x.g, m2, g2, d);
    hide Quiet, Inv;
    forall v | 0 <= v <= i ensures CopiedAt(m2, g2, p, d, v, more) {
      assert v < i ==> CopiedAt(m1, g1, p, d, v, lost);
    }
  }

  lemma CopyingFacts(x: Origin, m: M, g: G, p: nat, d: nat, i: nat, lost: set<nat>)
    requires Copying(x, m, g, p, d, i, lost)
    ensures Inv(m, g) && Shaped(m, g) && FreeOk(m, g) && p < NFRAMES && d < NFRAMES && p != d && g.own[p] == Dir(true)
    ensures g.own[d] == Dir(true)
    ensures i < UPAGES ==> Pte(m.tabs, d, i) == 0
  {
    if i < UPAGES {
      UnmappedZero(m, g, d, i);
    }
  }

  // A page in memory.

  /** After the allocation, frame f holds the page of (p, v) if that page is still present, and no user data
      otherwise. */
  lemma SourceAfter(m1: M, g1: G, m2: M, g2: G, p: nat, v: nat, t: nat)
    requires Inv(m1, g1) && p < NFRAMES && g1.own[p] == Dir(true) && v < UPAGES && Present(Pte(m1.tabs, p, v))
    requires Still(m1, g1, m2, g2) && JustFrees(g1, g2, t) && t < NFRAMES && |m2.data| == NFRAMES
    requires m2.data[t] == Filled(5, PGSIZE)
    ensures Shaped(m2, g2) && FrameOf(Pte(m1.tabs, p, v)) < NFRAMES
    ensures Seen(m1, g1, p, v) == Mapped(m1.data[FrameOf(Pte(m1.tabs, p, v))], Perm(Pte(m1.tabs, p, v)))
    ensures Present(Pte(m2.tabs, p, v)) ==> m2.data[FrameOf(Pte(m1.tabs, p, v))] == m1.data[FrameOf(Pte(m1.tabs, p, v))]
    ensures !Present(Pte(m2.tabs, p, v)) ==> Spoilt(m2.data[FrameOf(Pte(m1.tabs, p, v))])
  {
    var f := FrameOf(Pte(m1.tabs, p, v));
    PageFrame(m1, g1, p, v);
    StillDir(m1, g1, m2, g2, p);
    StillShaped(m1, g1, m2, g2);
    PageFrame(m2, g2, p, v);
    SourceSame(m1, g1, m2, g2, p, v);
    if !Present(Pte(m2.tabs, p, v)) && f != t {
      hide Still, Inv, TabsOk, PagesOk;
      assert g2.own[f].Free?;
      SpoiltFree(m2, g2, f);
    }
  }

  lemma SpoiltFree(m: M, g: G, f: nat)
    requires Shaped(m, g) && FreeOk(m, g) && f < NFRAMES && g.own[f].Free?
    ensures Spoilt(m.data[f])
  {
    hide Junk, Below;
    assert FreeFrame(m.data, m.link, g.free, f, g.own[f].k);
    assert m.data[f] == Junk(m.link[f]);
  }

  lemma SourceSame(m1: M, g1: G, m2: M, g2: G, p: nat, v: nat)
    requires Still(m1, g1, m2, g2) && p < NFRAMES && |g1.own| == NFRAMES && g1.own[p] == Dir(true) && v < UPAGES
    requires TabsShaped(m1.tabs) && TabsShaped(m2.tabs) && Present(Pte(m1.tabs, p, v))
    requires FrameOf(Pte(m1.tabs, p, v)) < NFRAMES
    ensures |m1.data| == |m2.data| == NFRAMES
    ensures Present(Pte(m2.tabs, p, v)) ==> m2.data[FrameOf(Pte(m1.tabs, p, v))] == m1.data[FrameOf(Pte(m1.tabs, p, v))]
  {
    hide Inv, Pte;
    assert PageKept(m1, g1, m2, g2, p, v);
    assert Shrinks(Pte(m1.tabs, p, v), Pte(m2.tabs, p, v), m1.slots);
  }

  lemma PermFlags(e: nat)
    ensures Flags(e) < PGSIZE && Perm(Flags(e)) == Perm(e)
  {
  }

  /** A frame for the page and, if it was missing, one for its table in d came off the free list; nothing else moved. */
  ghost predicate PaidFor(m: M, g: G, m': M, g': G, d: nat, v: nat) {
    && SereneBut(m, g, m', d) && d < NFRAMES && TablesOf(m'.tabs, d) == TablesOf(m.tabs, d) + {v / NENTRIES}
    && |g'.free| + 1 + |TablesOf(m'.tabs, d)| == |g.free| + |TablesOf(m.tabs, d)|
  }

  /**
   * Page v of d cost its table, if that was missing, and at most n frames more; no page of p
   * above v left memory.
   */
  ghost predicate Paying(m: M, g: G, m': M, g': G, p: nat, d: nat, v: nat, n: nat) {
    && TabsShaped(m.tabs) && TabsShaped(m'.tabs) && p < NFRAMES && d < NFRAMES
    && TablesOf(m'.tabs, d) <= TablesOf(m.tabs, d) + {v / NENTRIES}
    && |g'.free| + |TablesOf(m'.tabs, d)| + n >= |g.free| + |TablesOf(m.tabs, d)|
    && forall u :: v < u < UPAGES && Present(Pte(m.tabs, p, u)) ==> Present(Pte(m'.tabs, p, u))
  }

  lemma Paid(m1: M, g1: G, m2: M, g2: G, m3: M, m4: M, g4: G, d: nat, v: nat)
    requires Shaped(m1, g1) && Shaped(m2, g2) && SereneBut(m1, g1, m2, NFRAMES) && d < NFRAMES && v < VPAGES
    requires m2.tabs[d] == m1.tabs[d] && |g1.free| == |g2.free| + 1
    requires m3 == m2.(data := m3.data) && Frugal(m3, g2, m4, g4, d, v, Done)
    requires (g2.free != [] || HasTable(m1.tabs, d, v / NENTRIES))
    requires forall x :: 0 <= x < NFRAMES && g1.own[x].Dir? ==> g2.own[x].Dir?
    ensures PaidFor(m1, g1, m4, g4, d, v)
    ensures |g4.free| == |g1.free| - (if HasTable(m1.tabs, d, v / NENTRIES) then 1 else 2)
  {
    hide Pte;
    TablesRow(m1.tabs, m2.tabs, d);
    SpentMost(m3, g2, m4, g4, d, v);
  }

  /**
   * copyuvm on a present page: the child gets what the frame holds once its own frame is
   * allocated. That is the page, unless the page was Leaving: then kalloc itself evicts it.
   */
  method CopyPresent(k: Machine, p: nat, d: nat, v: nat, retries: nat, ghost x: Origin, ghost lost: set<nat>)
    returns (ok: bool, ghost more: set<nat>)
    requires Copying(x, k.m, k.g, p, d, v, lost) && v < UPAGES && NoneTaken(x.g, k.g) && Present(Pte(k.m.tabs, p, v))
    modifies k
    ensures NoneTaken(x.g, k.g)
    ensures ok ==> Copying(x, k.m, k.g, p, d, v + 1, more)
    ensures !ok ==> Copying(x, k.m, k.g, p, d, v, lost)
    ensures more == if ok && Leaving(old(k.m), old(k.g), p, v) then lost + {v} else lost
    ensures forall n: nat ::
      Gives(old(k.m), old(k.g), n) && (n >= 2 || (n == 1 && HasTable(old(k.m).tabs, d, v / NENTRIES))) ==>
      ok && |k.g.free| == n - (if HasTable(old(k.m).tabs, d, v / NENTRIES) then 1 else 2)
    ensures |old(k.g).free| >= 2 || (old(k.g).free != [] && HasTable(old(k.m).tabs, d, v / NENTRIES)) ==>
      ok && PaidFor(old(k.m), old(k.g), k.m, k.g, d, v)
    ensures old(k.g).free == [] && |FreeSlots(old(k.m).slots)| <= 1 && !HasTable(old(k.m).tabs, d, v / NENTRIES) ==> !ok
  {
    hide Inv, Still, Quiet, Copying, Pte, Seen, FreshHeld, JustFrees, NoneTaken, FrameAt, CalmBut, Loaded, Brought,
         Spoilt, PageMapped, Stuck, LeftOnly, Leaving, Gives, DirRows, Frugal, PaidFor, TablesOf, HasTable, CalmOff,
         Addr, FreeOk, FreeSlots;
    CopyingFacts(x, k.m, k.g, p, d, v, lost);
    ghost var m1, g1 := k.m, k.g;
    var e := Pte(k.m.tabs, p, v);
    var f, flags := FrameOf(e), Flags(e);
    more := lost;
    var a := KAllocRetry(k, retries);
    ghost var left := if a == 0 then 0 else |k.g.free| + 1;
    GivesAll(m1, g1, left);
    if a == 0 {
      StillQuiet(m1, g1, k.m, k.g);
      CopyingQuiet(x, m1, g1, k.m, k.g, p, d, v, lost);
      NoneTakenTrans(x.g, g1, k.g);
      return false, lost;
    }
    var t := FrameAt(a);
    FreshIn(g1, k.g, t);
    StillShaped(m1, g1, k.m, k.g);
    ghost var m2, g2 := k.m, k.g;
    RowTable(m1, g1, m2, g2, d, v / NENTRIES);
    SourceAfter(m1, g1, m2, g2, p, v, t);
    LeftAt(m1, g1, m2, p, v);
    var page := k.m.data[f];
    LoadedWrite(m1, g1, m2, g2, t, page);
    k.m := k.m.(data := k.m.data[t := page]);
    LoadedFacts(m1, g1, k.m, k.g, t, page, d, v);
    ghost var m3, g3 := k.m, k.g;
    SameTable(m2, m3, d, v / NENTRIES);
    PermFlags(e);
    StuckAfter(m3);
    var r := MapPage(k, d, v, t, flags);
    FrugalDone(m3, g3, k.m, k.g, d, v, r);
    if !r.Done? {
      GiveBack(k, t, m1, g1, m3, g3, page);
      CopyingQuiet(x, m1, g1, k.m, k.g, p, d, v, lost);
      NoneTakenTrans(x.g, g1, k.g);
      return false, lost;
    }
    BroughtIn(m1, g1, m3, g3, k.m, k.g, d, v, t, page, flags);
    if Leaving(m1, g1, p, v) {
      more := lost + {v};
    }
    CopiedIn(x, m1, g1, k.m, k.g, p, d, v, lost, more, page, flags);
    NoneTakenTrans(x.g, g1, k.g);
    StillDirs(m1, g1, m2, g2);
    FrugalCount(m1, m3, g3, k.m, k.g, d, v, r);
    if g1.free != [] && (g2.free != [] || HasTable(m1.tabs, d, v / NENTRIES)) {
      Paid(m1, g1, m2, g2, m3, k.m, k.g, d, v);
    }
    return true, more;
  }

  lemma StuckAfter(m: M)
    ensures |m.slots| == NSLOTS && |FreeSlots(m.slots)| == 0 ==> Stuck(m)
  {
    if |m.slots| == NSLOTS && |FreeSlots(m.slots)| == 0 {
      assert forall s :: 0 <= s < NSLOTS && m.slots[s].isFree ==> s in FreeSlots(m.slots);
      NoSlotStuck(m);
    }
  }

  lemma GivesAll(m: M, g: G, n: nat)
    requires Gives(m, g, n)
    ensures forall n': nat :: Gives(m, g, n') ==> n' == n
    ensures g.free != [] ==> n == |g.free|
  {
    forall n': nat | Gives(m, g, n') ensures n' == n {
      GivesOnce(m, g, n, n');
    }
  }

  lemma SameTable(m: M, m': M, d: nat, i: nat)
    requires TabsShaped(m.tabs) && m'.tabs == m.tabs && d < NFRAMES && i < NENTRIES
    ensures HasTable(m'.tabs, d, i) == HasTable(m.tabs, d, i)
  {
  }

  lemma FrugalDone(m: M, g: G, m': M, g': G, d: nat, v: nat, r: MapResult)
    requires Frugal(m, g, m', g', d, v, r)
    ensures g.free != [] || HasTable(m.tabs, d, v / NENTRIES) ==> !r.NoMemory?
  {
  }

  lemma FrugalCount(m1: M, m: M, g: G, m': M, g': G, d: nat, v: nat, r: MapResult)
    requires Frugal(m, g, m', g', d, v, r) && TabsShaped(m1.tabs)
    requires HasTable(m.tabs, d, v / NENTRIES) == HasTable(m1.tabs, d, v / NENTRIES)
    ensures g.free != [] || HasTable(m1.tabs, d, v / NENTRIES) ==>
      |g'.free| == |g.free| - (if HasTable(m1.tabs, d, v / NENTRIES) then 0 else 1)
  {
    hide CalmOff;
    if g.free != [] || HasTable(m1.tabs, d, v / NENTRIES) {
      SpentMost(m, g, m', g', d, v);
    }
  }

  lemma FreshIn(g: G, g': G, t: nat)
    requires FreshHeld(g, g', t)
    ensures t < NFRAMES
  {
  }

  lemma CopiedIn(x: Origin, m1: M, g1: G, m: M, g: G, p: nat, d: nat, v: nat, lost: set<nat>, more: set<nat>,
          page: seq<nat>, perm: nat)
    requires Copying(x, m1, g1, p, d, v, lost) && v < UPAGES && Brought(m1, g1, m, g, d, v, page, perm)
    requires Seen(m1, g1, p, v).Mapped? && Seen(m1, g1, p, v).perm == Perm(perm)
    requires (more == lost && page == Seen(m1, g1, p, v).bytes) || (more == lost + {v} && Spoilt(page))
    ensures Copying(x, m, g, p, d, v + 1, more) && NoneTaken(g1, g)
  {
    hide FreeOk, TabsOk, PagesOk, SlotsOk, ProcsOk, Seen, PdeKept, Pte, Spoilt, Perm, Flags, SlotsKept, ShrinksBut;
    assert v !in lost;
    assert PageKept(m1, g1, m, g, p, v);
    CopyingNext(x, m1, g1, m, g, p, d, v, lost, more);
  }

  // A page on disk.

  lemma SownSet(m: M, g: G, n: nat, d: nat, v: nat)
    requires Inv(m, g) && n < NSLOTS && Unnamed(m.tabs, g.own, n)
    ensures var g' := g.(sown := g.sown[n := (d, v)]); Inv(m, g') && Shaped(m, g')
  {
    hide ListOk, TabsOk, PagesOk, ProcsOk, Pte, FrameOf, Present;
    var g' := g.(sown := g.sown[n := (d, v)]);
    forall d', v' | 0 <= d' < NFRAMES && g.own[d'] == Dir(true) && 0 <= v' < UPAGES
      ensures SlotOk(Pte(m.tabs, d', v'), d', v', m.slots, g'.sown)
    {
      assert !Names(m.tabs, g.own, d', v', n);
      EntrySlot(m, g, d', v');
    }
  }

  /** Entry e of a swapped-out page may be written over an empty one. */
  ghost predicate SlotEntry(m: M, g: G, d: nat, v: nat, e: nat) {
    && Inv(m, g) && d < NFRAMES && g.own[d].Dir? && v < UPAGES && HasTable(m.tabs, d, v / NENTRIES)
    && Pte(m.tabs, d, v) == 0
    && !Present(e) && User(e) && e != 0 && FrameOf(e) < NSLOTS && SlotOk(e, d, v, m.slots, g.sown)
  }

  lemma SlotEntrySet(m: M, g: G, m': M, d: nat, v: nat, e: nat)
    requires SlotEntry(m, g, d, v, e) && m' == m.(tabs := SetPte(m.tabs, d, v, e))
    ensures EntrySet(m, g, m', g, d, v, e)
  {
    hide ListOk, TabsOk, PagesOk, SlotsOk, ProcsOk, SlotOk;
    SetPteTabs(m.tabs, g.own, d, v, e);
    hide Pte, SetPte;
  }

  lemma SlotEntryInv(m: M, g: G, m': M, d: nat, v: nat, e: nat)
    requires SlotEntry(m, g, d, v, e) && EntrySet(m, g, m', g, d, v, e)
    ensures Inv(m', g)
  {
    hide FreeOk, TabsOk, Pte, SlotOk, FrameOf;
    forall d', v' | 0 <= d' < NFRAMES && g.own[d'].Dir? && 0 <= v' < UPAGES
      ensures PageOk(m'.tabs, g.own, d', v')
      ensures g.own[d'] == Dir(true) ==> SlotOk(Pte(m'.tabs, d', v'), d', v', m'.slots, g.sown)
    {
      assert PageOk(m.tabs, g.own, d', v');
      assert g.own[d'] == Dir(true) ==> SlotOk(Pte(m.tabs, d', v'), d', v', m.slots, g.sown);
    }
    hide PageOk;
    forall x | 0 <= x < NFRAMES && g.own[x].Page? ensures PageHeld(m'.tabs, g.own, x, g.own[x].d, g.own[x].v) {
      assert PageHeld(m.tabs, g.own, x, g.own[x].d, g.own[x].v);
    }
  }

  lemma SlotEntryKeeps(m: M, g: G, m': M, d: nat, v: nat, e: nat)
    requires SlotEntry(m, g, d, v, e) && m' == m.(tabs := SetPte(m.tabs, d, v, e))
    ensures Inv(m', g) && Quiet(m, g, m', g, Hole(d, v, v + 1), NFRAMES)
    ensures Seen(m', g, d, v) == Mapped(SlotPage(m.disk, FrameOf(e)), Perm(e))
  {
    hide FreeOk, TabsOk, PagesOk, SlotsOk, ProcsOk, Quiet, SlotOk, SlotPage, Perm, FrameOf;
    SlotEntrySet(m, g, m', d, v, e);
    SlotEntryInv(m, g, m', d, v, e);
    EntrySetQuiet(m, g, m', g, d, v, e, NFRAMES);
    hide Pte, SetPte;
  }

  /** A slot in use that nobody names stays so while pages are evicted and tables made. */
  lemma UnnamedStill(m: M, g: G, m': M, g': G, n: nat)
    requires Inv(m, g) && Still(m, g, m', g') && n < NSLOTS && !m.slots[n].isFree && Unnamed(m.tabs, g.own, n)
    ensures Shaped(m', g') && Unnamed(m'.tabs, g'.own, n)
  {
    hide Inv, Still, Names;
    StillShaped(m, g, m', g');
    Shapes(m, g);
    forall d, v ensures !Names(m'.tabs, g'.own, d, v, n) {
      UnnamedStillAt(m, g, m', g', n, d, v);
    }
  }

  lemma UnnamedStillAt(m: M, g: G, m': M, g': G, n: nat, d: nat, v: nat)
    requires Shaped(m, g) && Shaped(m', g') && Still(m, g, m', g') && n < NSLOTS && !m.slots[n].isFree
    requires !Names(m.tabs, g.own, d, v, n)
    ensures !Names(m'.tabs, g'.own, d, v, n)
  {
    hide Inv, Pte, PageKept, PdeKept, FrameOf, Present, SlotKept;
    if d < NFRAMES && v < UPAGES && g'.own[d] == Dir(true) {
      assert OwnerKept(g, g', NOWHERE, NFRAMES, d);
      assert Shrinks(Pte(m.tabs, d, v), Pte(m'.tabs, d, v), m.slots);
    }
  }

  /** The child's entry for slot n: (new << 12) | (flags & ~PTE_P). */
  lemma ChildEntry(e: nat, n: nat)
    requires !Present(e) && User(e)
    ensures Flags(e) % 2 == 0
    ensures var c := n * PGSIZE + Flags(e);
      !Present(c) && User(c) && c != 0 && FrameOf(c) == n && Flags(c) == Flags(e) && Perm(c) == Perm(e)
  {
    FlagsLow(e);
    Built(n, Flags(e));
    FlagsLow(n * PGSIZE + Flags(e));
    hide Bare;
  }

  /** Page (p, v) is swapped out in (m1, g1), and slot n of (m2, g2) is an unnamed copy of its slot. */
  ghost predicate Duplicated(m1: M, g1: G, m2: M, g2: G, p: nat, v: nat, n: nat) {
    && Inv(m1, g1) && Still(m1, g1, m2, g2) && Shaped(m1, g1) && Shaped(m2, g2) && p < NFRAMES && g1.own[p] == Dir(true)
    && v < UPAGES
    && n < NSLOTS && var e := Pte(m1.tabs, p, v);
    && !Present(e) && e != 0 && FrameOf(e) < NSLOTS
    && m2.slots[n] == m1.slots[FrameOf(e)].(isFree := false) && SlotPage(m2.disk, n) == SlotPage(m1.disk, FrameOf(e))
    && Unnamed(m2.tabs, g2.own, n)
  }

  lemma ChildReady(m1: M, g1: G, m2: M, g2: G, m3: M, g3: G, p: nat, d: nat, v: nat, n: nat)
    requires Duplicated(m1, g1, m2, g2, p, v, n) && Still(m2, g2, m3, g3)
    requires d < NFRAMES && g1.own[d] == Dir(true) && Pte(m1.tabs, d, v) == 0 && TabsShaped(m3.tabs)
    requires HasTable(m3.tabs, d, v / NENTRIES)
    ensures var e := Pte(m1.tabs, p, v); var c := n * PGSIZE + Flags(e);
      && Shaped(m3, g3) && SlotEntry(m3, g3.(sown := g3.sown[n := (d, v)]), d, v, c) && FrameOf(c) == n
      && Flags(e) % 2 == 0
      && Seen(m1, g1, p, v) == Mapped(SlotPage(m3.disk, n), Perm(c))
  {
    hide Inv, Still, Unnamed, Flags, FrameOf, Perm, SlotPage, User, HasTable, Pte, Seen, Duplicated;
    DuplicatedLater(m1, g1, m2, g2, m3, g3, p, v, n);
    var e := Pte(m1.tabs, p, v);
    ChildEntry(e, n);
    StillDir(m1, g1, m3, g3, d);
    EntryStays(m1, g1, m3, g3, d, v);
    SownSet(m3, g3, n, d, v);
    assert SlotOk(n * PGSIZE + Flags(e), d, v, m3.slots, g3.sown[n := (d, v)]);
  }

  /** The copy of the slot is still there, unnamed, after later evictions. */
  lemma DuplicatedLater(m1: M, g1: G, m2: M, g2: G, m3: M, g3: G, p: nat, v: nat, n: nat)
    requires Duplicated(m1, g1, m2, g2, p, v, n) && Still(m2, g2, m3, g3)
    ensures Still(m1, g1, m3, g3) && Inv(m3, g3) && Shaped(m3, g3) && Shaped(m1, g1) && Unnamed(m3.tabs, g3.own, n)
    ensures n < NSLOTS
    ensures p < NFRAMES && v < UPAGES && var e := Pte(m1.tabs, p, v);
      && !Present(e) && User(e) && !m3.slots[n].isFree && m3.slots[n].perm == Flags(e) + 1
      && Seen(m1, g1, p, v) == Mapped(SlotPage(m3.disk, n), Perm(e))
  {
    hide Inv, Still, Unnamed, Flags, FrameOf, Perm, SlotPage, User, Pte, Seen, Present;
    EntrySlot(m1, g1, p, v);
    SwappedSeen(m1, g1, p, v);
    StillTrans(m1, g1, m2, g2, m3, g3);
    StillShaped(m2, g2, m3, g3);
    StillShaped(m1, g1, m2, g2);
    StillKeepsSlot(m2, g2, m3, g3, n);
    UnnamedStill(m2, g2, m3, g3, n);
  }

  lemma SwappedSeen(m: M, g: G, d: nat, v: nat)
    requires Shaped(m, g) && d < NFRAMES && v < UPAGES && !Present(Pte(m.tabs, d, v)) && Pte(m.tabs, d, v) != 0
    requires FrameOf(Pte(m.tabs, d, v)) < NSLOTS
    ensures Seen(m, g, d, v) == Mapped(SlotPage(m.disk, FrameOf(Pte(m.tabs, d, v))), Perm(Pte(m.tabs, d, v)))
  {
  }

  lemma EntryStays(m: M, g: G, m': M, g': G, d: nat, v: nat)
    requires Still(m, g, m', g') && d < NFRAMES && |g.own| == NFRAMES && g.own[d].Dir? && v < UPAGES
    requires TabsShaped(m.tabs)
    requires !Present(Pte(m.tabs, d, v))
    ensures TabsShaped(m'.tabs) && Pte(m'.tabs, d, v) == Pte(m.tabs, d, v)
  {
    hide Inv, Pte, Quiet;
    assert Shrinks(Pte(m.tabs, d, v), Pte(m'.tabs, d, v), m.slots);
  }

  /** copyuvm on a swapped-out page whose slot was duplicated into n. */
  method CopyDuplicated(k: Machine, p: nat, d: nat, v: nat, n: nat, flags: nat, ghost x: Origin, ghost m1: M,
          ghost g1: G, ghost lost: set<nat>)
    returns (ok: bool)
    requires Copying(x, m1, g1, p, d, v, lost) && Duplicated(m1, g1, k.m, k.g, p, v, n)
    requires flags == Flags(Pte(m1.tabs, p, v))
    requires NoneTaken(x.g, k.g)
    modifies k
    ensures NoneTaken(x.g, k.g) && Copying(x, k.m, k.g, p, d, if ok then v + 1 else v, lost)
    ensures old(k.g).free != [] || HasTable(old(k.m).tabs, d, v / NENTRIES) ==>
      ok && Paying(old(k.m), old(k.g), k.m, k.g, p, d, v, 0)
  {
    hide Inv, Still, Quiet, Copying, Pte, Seen, CalmBut, SlotPage, Duplicated, FrameOf, Flags, SlotEntry, Perm, FreeOk,
         Stuck, Spent, Paying, HasTable;
    ghost var m2, g2 := k.m, k.g;
    CopyingFacts(x, m1, g1, p, d, v, lost);
    DuplicatedFacts(m1, g1, m2, g2, p, v, n);
    StillDir(m1, g1, m2, g2, d);
    StillDir(m1, g1, m2, g2, p);
    ok := WalkPgDir(k, d, v, true);
    ghost var m3, g3 := k.m, k.g;
    NoneTakenTrans(x.g, g2, g3);
    StillTrans(m1, g1, m2, g2, m3, g3);
    StillQuiet(m1, g1, m3, g3);
    CopyingQuiet(x, m1, g1, m3, g3, p, d, v, lost);
    StillShaped(m2, g2, m3, g3);
    if !ok { return; }
    ChildReady(m1, g1, m2, g2, m3, g3, p, d, v, n);
    k.g := k.g.(sown := k.g.sown[n := (d, v)]);
    CalmRefl(m2, g2, NFRAMES);
    StillDir(m2, g2, m3, g3, p);
    hide Shaped;
    SetChild(k, p, d, v, n * PGSIZE + (flags - flags % 2), x, m1, g1, m3, g3, lost);
    if g2.free != [] || HasTable(m2.tabs, d, v / NENTRIES) {
      PaidSlot(m2, g2, m3, g3, k.m, k.g, p, d, v);
    }
  }

  lemma PaidSlot(m2: M, g2: G, m3: M, g3: G, m4: M, g4: G, p: nat, d: nat, v: nat)
    requires Spent(m2, g2, m3, g3, d, v) && Calm(m2, g2, m3) && CalmOff(m3, g3, m4, d, v) && g4.free == g3.free
    requires p < NFRAMES && p != d && g2.own[p].Dir? && g3.own[p].Dir? && m4.tabs[d] == m3.tabs[d]
    ensures Paying(m2, g2, m4, g4, p, d, v, 0)
  {
    hide Pte, Present;
    TablesRow(m3.tabs, m4.tabs, d);
  }

  lemma ChildCalm(m: M, g: G, d: nat, v: nat, c: nat)
    requires SlotEntry(m, g, d, v, c)
    ensures var m' := m.(tabs := SetPte(m.tabs, d, v, c)); CalmOff(m, g, m', d, v) && m'.tabs[d] == m.tabs[d]
  {
    hide FreeOk, TabsOk, PagesOk, SlotsOk, ProcsOk, SlotOk;
    SetPteTabs(m.tabs, g.own, d, v, c);
    hide Pte, SetPte;
  }

  lemma DuplicatedFacts(m1: M, g1: G, m2: M, g2: G, p: nat, v: nat, n: nat)
    requires Duplicated(m1, g1, m2, g2, p, v, n)
    ensures Still(m1, g1, m2, g2) && Inv(m2, g2) && Shaped(m2, g2) && v < UPAGES && n < NSLOTS
  {
  }

  /** The child's entry is written; its page looks like the parent's. */
  method SetChild(k: Machine, ghost p: nat, d: nat, v: nat, c: nat, ghost x: Origin, ghost m1: M, ghost g1: G,
          ghost m3: M, ghost g3: G, ghost lost: set<nat>)
    requires Copying(x, m3, g3, p, d, v, lost) && Still(m1, g1, m3, g3) && Shaped(m1, g1) && p < NFRAMES
    requires g1.own[p] == Dir(true) && v < UPAGES
    requires k.m == m3 && k.g == g3.(sown := k.g.sown) && SlotEntry(k.m, k.g, d, v, c) && NoneTaken(x.g, k.g)
    requires DiskShaped(m3.disk) && FrameOf(c) < NSLOTS
    requires Seen(m1, g1, p, v) == Mapped(SlotPage(m3.disk, FrameOf(c)), Perm(c))
    modifies k
    ensures Copying(x, k.m, k.g, p, d, v + 1, lost) && k.g == old(k.g)
    ensures CalmOff(m3, g3, k.m, d, v) && k.m.tabs[d] == m3.tabs[d]
  {
    hide Inv, Still, Quiet, Copying, Pte, Seen, SlotPage, FrameOf, SlotEntry, Perm, CalmOff;
    EntryReady(k.m, k.g, d, v, c);
    ChildCalm(k.m, k.g, d, v, c);
    CalmOwners(m3, g3, k.g, SetPte(k.m.tabs, d, v, c), d, v);
    k.m := k.m.(tabs := SetPte(k.m.tabs, d, v, c));
    SlotEntryKeeps(m3, k.g, k.m, d, v, c);
    SownQuiet(x, m3, g3, k.g, p, d, v, lost);
    SeenStill(m1, g1, m3, g3, k.g, p, v);
    DupCopied(x, m1, g1, m3, k.g, k.m, p, d, v, lost, c, FrameOf(c));
  }

  lemma CalmOwners(m: M, g: G, g': G, tabs: Tables, d: nat, v: nat)
    requires g'.own == g.own && CalmOff(m, g', m.(tabs := tabs), d, v)
    ensures CalmOff(m, g, m.(tabs := tabs), d, v)
  {
    hide Pte;
  }

  lemma EntryReady(m: M, g: G, d: nat, v: nat, c: nat)
    requires SlotEntry(m, g, d, v, c)
    ensures Inv(m, g) && Shaped(m, g) && d < NFRAMES && v < UPAGES && HasTable(m.tabs, d, v / NENTRIES)
  {
  }

  lemma SownQuiet(x: Origin, m: M, g: G, g': G, p: nat, d: nat, v: nat, lost: set<nat>)
    requires Copying(x, m, g, p, d, v, lost) && g' == g.(sown := g'.sown) && Inv(m, g')
    ensures Copying(x, m, g', p, d, v, lost)
  {
    hide FreeOk, TabsOk, PagesOk, SlotsOk, ProcsOk, Pte, Spoilt, CopiedAt;
    assert Quiet(m, g, m, g', NOWHERE, NFRAMES);
    CopyingQuiet(x, m, g, m, g', p, d, v, lost);
  }

  lemma SeenStill(m1: M, g1: G, m3: M, g3: G, g4: G, p: nat, v: nat)
    requires Still(m1, g1, m3, g3) && p < NFRAMES && |g1.own| == NFRAMES && g1.own[p] == Dir(true) && v < UPAGES
    requires Shaped(m3, g4) && Shaped(m1, g1)
    ensures Seen(m3, g4, p, v) == Seen(m1, g1, p, v)
  {
    hide Inv, Pte, PdeKept, OwnerKept, SlotPage, Perm;
    assert PageKept(m1, g1, m3, g3, p, v);
  }

  lemma DupCopied(x: Origin, m1: M, g1: G, m3: M, g4: G, m4: M, p: nat, d: nat, v: nat, lost: set<nat>, c: nat, n: nat)
    requires Copying(x, m3, g4, p, d, v, lost) && v < UPAGES && Inv(m4, g4)
    requires Quiet(m3, g4, m4, g4, Hole(d, v, v + 1), NFRAMES)
    requires Shaped(m1, g1) && p < NFRAMES && Seen(m3, g4, p, v) == Seen(m1, g1, p, v) && n < NSLOTS
    requires Seen(m1, g1, p, v) == Mapped(SlotPage(m3.disk, n), Perm(c))
    requires Seen(m4, g4, d, v) == Mapped(SlotPage(m3.disk, n), Perm(c))
    ensures Copying(x, m4, g4, p, d, v + 1, lost)
  {
    hide Inv, Pte, PdeKept, OwnerKept, SlotPage, Perm, Seen;
    assert PageKept(m3, g4, m4, g4, p, v);
    assert v !in lost;
    CopyingNext(x, m3, g4, m4, g4, p, d, v, lost, lost);
  }

  /**
   * Page v of p, swapped out, would be the first to leave again once it is back in memory: p is
   * then the victim's, and none of its pages goes before v.
   */
  ghost predicate Returns(m: M, p: nat, v: nat, cur: int) {
    && TabsShaped(m.tabs) && p < NFRAMES && v < UPAGES
    && (exists w: nat :: IsVictim(Counted(m.procs, cur), w) && Counted(m.procs, cur)[w].pgdir == p)
    && Rank(Evictables(m.tabs, p) + {v},
            IdleAfter(m, p) + (if Accessed(Pte(m.tabs, p, v)) then {} else {v}), v) == 0
  }

  lemma BackBits(e: nat, e': nat)
    requires !Present(e) && Flags(e') == Flags(e) + 1
    ensures Present(e') && User(e') == User(e) && Accessed(e') == Accessed(e)
  {
    FlagsLow(e);
    FlagsLow(e');
    hide Flags;
    NextBits(Flags(e));
  }

  lemma NextBits(f: nat)
    requires f % 2 == 0
    ensures (f + 1) % 2 == 1 && (f + 1) % 8 == f % 8 + 1 && (f + 1) % 64 == f % 64 + 1
    ensures f % 8 != 3 && f % 64 != 31
  {
    EvenRest(4 * (f / 8), f % 8);
    EvenRest(32 * (f / 64), f % 64);
    RestEight(f / 8, f % 8 + 1);
    RestSixtyFour(f / 64, f % 64 + 1);
  }

  lemma EvenRest(h: nat, r: nat)
    requires (2 * h + r) % 2 == 0
    ensures r % 2 == 0
  {
  }

  lemma RestEight(q: nat, r: nat)
    requires r < 8
    ensures (8 * q + r) % 8 == r
  {
  }

  lemma RestSixtyFour(q: nat, r: nat)
    requires r < 64
    ensures (64 * q + r) % 64 == r
  {
  }

  /** The page (p, v) has come back from slot s into the last free frame. */
  ghost predicate Back(m1: M, g1: G, m2: M, g2: G, m3: M, p: nat, v: nat, s: nat, cur: int) {
    && Vain(m1, g1, m2) && NoSlot(m2) && CalmOff(m2, g2, m3, p, v) && Installed(m2, m3, s, cur) && m3.npages >= 1
    && p < NFRAMES && g1.own[p].Dir? && g2.own[p].Dir? && v < UPAGES
    && Pte(m2.tabs, p, v) == Pte(m1.tabs, p, v) && !Present(Pte(m1.tabs, p, v)) && User(Pte(m1.tabs, p, v))
    && Flags(Pte(m3.tabs, p, v)) == Flags(Pte(m1.tabs, p, v)) + 1
  }

  lemma OneBack(tabs: Tables, tabs': Tables, p: nat, v: nat)
    requires TabsShaped(tabs) && TabsShaped(tabs') && p < NFRAMES && v < UPAGES
    requires forall u :: 0 <= u < UPAGES && u != v ==> Pte(tabs', p, u) == Pte(tabs, p, u)
    requires !Present(Pte(tabs, p, v)) && Present(Pte(tabs', p, v)) && User(Pte(tabs', p, v))
    ensures Evictables(tabs', p) == Evictables(tabs, p) + {v}
    ensures Idles(tabs', p) == Idles(tabs, p) + (if Accessed(Pte(tabs', p, v)) then {} else {v})
  {
    hide Pte;
  }

  lemma BackSets(m1: M, g1: G, m2: M, g2: G, m3: M, p: nat, v: nat, s: nat, cur: int)
    requires Back(m1, g1, m2, g2, m3, p, v, s, cur)
    ensures Evictables(m3.tabs, p) == Evictables(m1.tabs, p) + {v}
    ensures Idles(m3.tabs, p) == IdleAfter(m1, p) + (if Accessed(Pte(m1.tabs, p, v)) then {} else {v})
    ensures |FreeSlots(m3.slots)| == 1 && Batch(m3, p) == 1
  {
    BackBits(Pte(m1.tabs, p, v), Pte(m3.tabs, p, v));
    hide Pte, Flags, Idles, Evictables, IdleAfter, Present, User, Accessed;
    OneBack(m2.tabs, m3.tabs, p, v);
    assert FreeSlots(m3.slots) == {s};
    Subset({v}, Evictables(m3.tabs, p));
  }

  /** It is lost exactly if it would return. */
  lemma ReturnsIff(m1: M, g1: G, m2: M, g2: G, m3: M, g3: G, p: nat, v: nat, s: nat, cur: int)
    requires Back(m1, g1, m2, g2, m3, p, v, s, cur) && g3.free == []
    ensures Leaving(m3, g3, p, v) <==> Returns(m1, p, v, cur)
    ensures Leaving(m3, g3, p, v) ==> Gives(m3, g3, 1)
    ensures |FreeSlots(m3.slots)| == 1
  {
    BackSets(m1, g1, m2, g2, m3, p, v, s, cur);
    assert v in Evictables(m3.tabs, p);
    assert m3.procs == Counted(m1.procs, cur);
    hide Back, Batch, Rank, Evictables, Idles, IdleAfter, Prefers, FreeSlots, Pte;
    if Leaving(m3, g3, p, v) {
      var w: nat :| IsVictim(m3.procs, w) && m3.procs[w].pgdir == p;
      forall w': nat | IsVictim(m3.procs, w') ensures w' == w {
        OneVictim(m3.procs, w, w');
      }
    }
  }

  /** copyuvm on a swapped-out page: a second slot, or bring the page in and copy its frame. */
  method CopySwapped(k: Machine, p: nat, d: nat, v: nat, cur: int, ghost x: Origin, ghost lost: set<nat>)
    returns (ok: bool, ghost more: set<nat>)
    requires Copying(x, k.m, k.g, p, d, v, lost) && v < UPAGES && NoneTaken(x.g, k.g)
    requires !Present(Pte(k.m.tabs, p, v)) && Pte(k.m.tabs, p, v) != 0
    requires cur < |k.m.procs| && (cur >= 0 ==> k.m.procs[cur].state == Ready)
    modifies k
    ensures NoneTaken(x.g, k.g)
    ensures ok ==> Copying(x, k.m, k.g, p, d, v + 1, more) && (more == lost || more == lost + {v})
    ensures !ok ==> Copying(x, k.m, k.g, p, d, v, lost) && more == lost
    ensures more != lost <==>
      && NoSlot(old(k.m)) && |old(k.g).free| == 1 && HasTable(old(k.m).tabs, d, v / NENTRIES)
      && Returns(old(k.m), p, v, cur)
    ensures |old(k.g).free| >= (if HasTable(old(k.m).tabs, d, v / NENTRIES) then 2 else 3) ==>
      ok && Paying(old(k.m), old(k.g), k.m, k.g, p, d, v, 2)
  {
    hide Inv, Still, Quiet, Copying, Pte, Seen, NoneTaken, SlotPage, Unnamed, Flags, Perm, BackIn, OnlyFrees, Stuck,
         NoSlot, Resident, CalmOff, Gives, Leaving, PaidFor, HasTable, Blank, Paying, Vain, Returns, DirRows, FreeSlots,
         FrameOf, FreeOk;
    CopyingFacts(x, k.m, k.g, p, d, v, lost);
    ghost var m1, g1 := k.m, k.g;
    var e := Pte(k.m.tabs, p, v);
    EntrySlot(m1, g1, p, v);
    var s, flags := FrameOf(e), Flags(e);
    more := lost;
    var n := k.DuplicateSlot(s);
    FreesNone(m1, g1, k.m, k.g);
    NoneTakenTrans(x.g, g1, k.g);
    StillShaped(m1, g1, k.m, k.g);
    if n >= 0 {
      ghost var m2 := k.m;
      SameTable(m1, m2, d, v / NENTRIES);
      ok := CopyDuplicated(k, p, d, v, n, flags, x, m1, g1, lost);
      if |g1.free| >= 1 {
        PayingMore(m1, m2, g1, k.m, k.g, p, d, v);
      }
      return ok, lost;
    }
    ok, more := CopyBack(k, p, d, v, cur, x, lost, m1, g1);
  }

  /** No slot is free: the page comes back, if there is a frame, and is copied like any other. */
  method CopyBack(k: Machine, p: nat, d: nat, v: nat, cur: int, ghost x: Origin, ghost lost: set<nat>, ghost m1: M,
          ghost g1: G)
    returns (ok: bool, ghost more: set<nat>)
    requires Copying(x, m1, g1, p, d, v, lost) && v < UPAGES && NoneTaken(x.g, k.g)
    requires !Present(Pte(m1.tabs, p, v)) && Pte(m1.tabs, p, v) != 0
    requires cur < |m1.procs| && (cur >= 0 ==> m1.procs[cur].state == Ready)
    requires NoSlot(m1) && Still(m1, g1, k.m, k.g) && Resident(m1, g1, k.m) && DirRows(m1, g1, k.m)
    requires |k.g.free| == |g1.free| && (|g1.free| <= 1 ==> Vain(m1, g1, k.m))
    modifies k
    ensures NoneTaken(x.g, k.g)
    ensures ok ==> Copying(x, k.m, k.g, p, d, v + 1, more) && (more == lost || more == lost + {v})
    ensures !ok ==> Copying(x, k.m, k.g, p, d, v, lost) && more == lost
    ensures more != lost <==>
      |g1.free| == 1 && HasTable(m1.tabs, d, v / NENTRIES) && Returns(m1, p, v, cur)
    ensures |g1.free| >= (if HasTable(m1.tabs, d, v / NENTRIES) then 2 else 3) ==>
      ok && Paying(m1, g1, k.m, k.g, p, d, v, 2)
  {
    hide Inv, Still, Quiet, Copying, Pte, Seen, NoneTaken, SlotPage, Unnamed, Flags, Perm, BackIn, OnlyFrees, Stuck,
         NoSlot, Resident, CalmOff, Gives, Leaving, PaidFor, HasTable, Blank, Paying, Vain, Returns, DirRows, FreeSlots,
         FrameOf, FreeOk, Back, Installed;
    ghost var m2, g2 := k.m, k.g;
    CopyingFacts(x, m1, g1, p, d, v, lost);
    CopyingLost(x, m1, g1, p, d, v, lost);
    EntrySlot(m1, g1, p, v);
    StillShaped(m1, g1, m2, g2);
    EntryStays(m1, g1, m2, g2, p, v);
    StillQuiet(m1, g1, m2, g2);
    CopyingQuiet(x, m1, g1, m2, g2, p, d, v, lost);
    CopyingFacts(x, m2, g2, p, d, v, lost);
    if cur >= 0 {
      StillState(m1, g1, m2, g2, cur);
    }
    StillLen(m1, g1, m2, g2);
    SlotsGone(m1, g1, m2, g2);
    NoSlotStuck(m2);
    NotBlank(m2, p, v);
    RowHasTable(m1, g1, m2, d, v / NENTRIES);
    var r := SwapIn(k, p, v, cur);
    if r != 0 {
      CopyingQuiet(x, m2, g2, k.m, k.g, p, d, v, lost);
      NoneTakenTrans(x.g, g2, k.g);
      return false, lost;
    }
    ghost var m3, g3 := k.m, k.g;
    BackFacts(m2, g2, m3, g3, p, v);
    CopyingQuiet(x, m2, g2, m3, g3, p, d, v, lost);
    CopyingFacts(x, m3, g3, p, d, v, lost);
    NoneTakenTrans(x.g, g2, g3);
    GivesLess(m2, g2, |g3.free| + 1);
    RowHasTable(m2, g2, m3, d, v / NENTRIES);
    if |g1.free| == 1 {
      assert Back(m1, g1, m2, g2, m3, p, v, FrameOf(Pte(m1.tabs, p, v)), cur) by {
        BackReady(m1, g1, m2, g2, m3, g3, p, v, cur);
      }
      ReturnsIff(m1, g1, m2, g2, m3, g3, p, v, FrameOf(Pte(m1.tabs, p, v)), cur);
    }
    LeavingEmpty(m3, g3, p, v);
    ok, more := CopyPresent(k, p, d, v, 0, x, lost);
    if |g3.free| >= (if HasTable(m1.tabs, d, v / NENTRIES) then 1 else 2) {
      PaidBack(m1, g1, m2, g2, m3, g3, k.m, k.g, p, d, v);
    }
  }

  lemma BackReady(m1: M, g1: G, m2: M, g2: G, m3: M, g3: G, p: nat, v: nat, cur: int)
    requires Vain(m1, g1, m2) && NoSlot(m2) && CalmOff(m2, g2, m3, p, v) && BackIn(m2, g2, m3, g3, p, v)
    requires Installed(m2, m3, FrameOf(Pte(m2.tabs, p, v)), cur)
    requires p < NFRAMES && g1.own[p].Dir? && |g2.own| == NFRAMES && g2.own[p].Dir? && v < UPAGES
    requires TabsShaped(m1.tabs) && TabsShaped(m2.tabs)
    requires Pte(m2.tabs, p, v) == Pte(m1.tabs, p, v) && !Present(Pte(m1.tabs, p, v)) && User(Pte(m1.tabs, p, v))
    ensures Back(m1, g1, m2, g2, m3, p, v, FrameOf(Pte(m1.tabs, p, v)), cur)
  {
    hide FreeOk, TabsOk, PagesOk, SlotsOk, ProcsOk, Vain, NoSlot, CalmOff, Installed, Pte, Quiet, NoneTaken, Seen;
  }

  lemma CopyingLost(x: Origin, m: M, g: G, p: nat, d: nat, i: nat, lost: set<nat>)
    requires Copying(x, m, g, p, d, i, lost)
    ensures i !in lost
  {
  }

  lemma PayingMore(m: M, m1: M, g: G, m': M, g': G, p: nat, d: nat, v: nat)
    requires Paying(m1, g, m', g', p, d, v, 0) && m1.tabs == m.tabs
    ensures Paying(m, g, m', g', p, d, v, 2)
  {
    hide Pte;
  }

  lemma PaidBack(m1: M, g1: G, m2: M, g2: G, m3: M, g3: G, m4: M, g4: G, p: nat, d: nat, v: nat)
    requires Resident(m1, g1, m2) && DirRows(m1, g1, m2) && DirRows(m2, g2, m3) && CalmOff(m2, g2, m3, p, v)
    requires PaidFor(m3, g3, m4, g4, d, v) && |g2.free| == |g1.free| && |g3.free| == |g2.free| - 1
    requires p < NFRAMES && d < NFRAMES && p != d && v < UPAGES
    requires g1.own[p].Dir? && g2.own[p].Dir? && g3.own[p].Dir? && g1.own[d].Dir? && g2.own[d].Dir?
    ensures Paying(m1, g1, m4, g4, p, d, v, 2)
  {
    hide Pte, Present;
    TablesRow(m1.tabs, m2.tabs, d);
    TablesRow(m2.tabs, m3.tabs, d);
  }

  lemma NotBlank(m: M, d: nat, v: nat)
    requires TabsShaped(m.tabs) && d < NFRAMES && v < VPAGES && |m.slots| == NSLOTS && Pte(m.tabs, d, v) != 0
    ensures !Blank(m, d, v)
  {
  }

  lemma LeavingEmpty(m: M, g: G, p: nat, v: nat)
    ensures Leaving(m, g, p, v) ==> g.free == []
  {
  }

  lemma PaidPaying(m: M, g: G, m': M, g': G, p: nat, d: nat, v: nat)
    requires PaidFor(m, g, m', g', d, v) && p < NFRAMES && p != d && g.own[p].Dir?
    ensures Paying(m, g, m', g', p, d, v, 1)
  {
    hide Pte;
  }

  lemma PayingNone(m: M, g: G, p: nat, d: nat, v: nat)
    requires TabsShaped(m.tabs) && p < NFRAMES && d < NFRAMES
    ensures Paying(m, g, m, g, p, d, v, 2)
  {
  }

  lemma StillState(m: M, g: G, m': M, g': G, p: nat)
    requires Still(m, g, m', g') && p < |m.procs|
    ensures p < |m'.procs| && m'.procs[p].state == m.procs[p].state
  {
  }

  lemma StillLen(m: M, g: G, m': M, g': G)
    requires Still(m, g, m', g')
    ensures |m'.procs| == |m.procs|
  {
  }

  lemma BackFacts(m: M, g: G, m': M, g': G, d: nat, v: nat)
    requires BackIn(m, g, m', g', d, v)
    ensures Inv(m', g') && Shaped(m', g') && Quiet(m, g, m', g', NOWHERE, NFRAMES) && NoneTaken(g, g')
    ensures Present(Pte(m'.tabs, d, v))
  {
  }

  /** The frames a child with pages below i takes: its directory, its tables and one for each page. */
  ghost function Cost(i: nat): nat { 1 + |KernelTables() + Spanning(0, i)| + i }

  /** The pages of p below i that are not in memory. */
  ghost function Outs(m: M, p: nat, i: nat): set<nat>
    requires TabsShaped(m.tabs) && p < NFRAMES && i <= UPAGES
  {
    set v: nat | v < i && !Present(Pte(m.tabs, p, v))
  }

  /** There are frames for the pages below i, with one more for each that may have to come back first. */
  ghost predicate Fits(m: M, g: G, p: nat, i: nat) {
    TabsShaped(m.tabs) && p < NFRAMES && i <= UPAGES && |g.free| >= Cost(i) + |Outs(m, p, i)|
  }

  /** Page i and those below it are in memory. */
  ghost predicate Near(m: M, p: nat, i: nat) {
    TabsShaped(m.tabs) && p < NFRAMES && i < UPAGES && Outs(m, p, i + 1) == {}
  }

  lemma OutsGrow(m: M, p: nat, i: nat)
    requires TabsShaped(m.tabs) && p < NFRAMES && i < UPAGES
    ensures Outs(m, p, i + 1) == Outs(m, p, i) + (if Present(Pte(m.tabs, p, i)) then {} else {i})
    ensures |Outs(m, p, i + 1)| == |Outs(m, p, i)| + (if Present(Pte(m.tabs, p, i)) then 0 else 1)
    ensures Outs(m, p, i + 1) == {} ==> Outs(m, p, i) == {} && Present(Pte(m.tabs, p, i))
  {
    hide Pte;
    assert Outs(m, p, i + 1) == Outs(m, p, i) + (if Present(Pte(m.tabs, p, i)) then {} else {i});
    assert i !in Outs(m, p, i);
    assert Outs(m, p, i) <= Outs(m, p, i + 1);
  }

  lemma OutsFewer(m: M, p: nat, i: nat, j: nat)
    requires TabsShaped(m.tabs) && p < NFRAMES && i <= j <= UPAGES
    ensures |Outs(m, p, i)| <= |Outs(m, p, j)| && (Outs(m, p, j) == {} ==> Outs(m, p, i) == {})
  {
    hide Pte;
    assert Outs(m, p, i) <= Outs(m, p, j);
    Subset(Outs(m, p, i), Outs(m, p, j));
  }

  /** Three frames for each page always do. */
  lemma ThreeEachFit(m: M, g: G, p: nat, n: nat)
    requires TabsShaped(m.tabs) && p < NFRAMES && n <= UPAGES && |g.free| >= 10 + 3 * n
    ensures Fits(m, g, p, n)
  {
    NineTables();
    SpanningMost(0, n);
    OutsMost(m, p, n);
    hide KernelTables, Spanning, Outs;
    UnionMost(KernelTables(), Spanning(0, n));
  }

  lemma {:induction false} OutsMost(m: M, p: nat, n: nat)
    requires TabsShaped(m.tabs) && p < NFRAMES && n <= UPAGES
    ensures |Outs(m, p, n)| <= n
  {
    if n > 0 {
      OutsMost(m, p, n - 1);
      OutsGrow(m, p, n - 1);
    }
  }

  /** The child of a parent in memory runs short at one page, if at all: ten frames reach up to it and no further. */
  lemma {:induction false} SomeBrink(g: G, n: nat) returns (brink: nat)
    requires |g.free| >= 10 && n <= UPAGES
    ensures brink <= n && |g.free| >= Cost(brink) && (brink == n || |g.free| < Cost(brink + 1))
  {
    NineTables();
    assert KernelTables() + Spanning(0, 0) == KernelTables();
    if n == 0 {
      return 0;
    }
    brink := SomeBrink(g, n - 1);
    if brink == n - 1 && |g.free| >= Cost(n) {
      brink := n;
    }
  }

  /**
   * copyuvm: 0 and no trace, or a child with the kernel's mappings whose pages look like
   * the parent's, except the lost ones: their frame was evicted between the reading of
   * its number and the copy, and the child got what kfree or kalloc left in it. As far as the
   * frames fit nothing is lost. The next page, if it and those before it are in memory, is
   * lost exactly if the frames run out with it and a swapout at the call would take it.
   * Panic is the missing page table of the parent.
   */
  method CopyUvm(k: Machine, p: nat, sz: nat, data: nat, cur: int, ghost brink: nat)
    returns (panic: bool, d: nat, ghost lost: set<nat>)
    requires k.Valid() && p < NFRAMES && k.g.own[p] == Dir(true) && sz <= KERNBASE && EXTPAGES < data < NFRAMES
    requires cur < |k.m.procs| && (cur >= 0 ==> k.m.procs[cur].state == Ready)
    modifies k
    ensures k.Valid() && NoneTaken(old(k.g), k.g)
    ensures panic ==> exists v :: 0 <= v < Pages(sz) && !HasTable(old(k.m).tabs, p, v / NENTRIES)
    ensures !panic && d == 0 ==> Quiet(old(k.m), old(k.g), k.m, k.g, NOWHERE, NFRAMES)
    ensures !panic && d != 0 ==> Copying(Origin(old(k.m), old(k.g), data), k.m, k.g, p, d, Pages(sz), lost)
    ensures Fits(old(k.m), old(k.g), p, brink) ==> forall v :: v in lost ==> brink <= v < Pages(sz)
    ensures !panic && Fits(old(k.m), old(k.g), p, brink) && Pages(sz) <= brink ==> d != 0 && lost == {}
    ensures !panic && d != 0 && Fits(old(k.m), old(k.g), p, brink) && brink < Pages(sz) && Near(old(k.m), p, brink) ==>
      (brink in lost <==> |old(k.g).free| == Cost(brink) && Doomed(old(k.m), p, brink))
    ensures !panic && Near(old(k.m), p, brink) && |old(k.g).free| == Cost(brink) && Pages(sz) == brink + 1 ==>
      forall n: nat :: n >= 2 && Gives(old(k.m), old(k.g).(free := []), n) ==> d != 0
  {
    hide Inv, Quiet, Copying, CopyState, KernelMapped, Pte, Seen, NoneTaken, SereneBut, NewDir, Fits, Near, Doomed,
         Gives, TablesOf, KernelTables, PaidFor, Leaving, HasTable, Cost, Paying, Outs, Returns;
    ghost var x := Origin(k.m, k.g, data);
    ghost var n := Pages(sz);
    panic, lost := false, {};
    Shapes(k.m, k.g);
    NearFits(x, p, brink);
    d := SetupKvm(k, data);
    if d == 0 {
      FitsTen(x, p, brink);
      return;
    }
    CopyStart(x, k.m, k.g, p, d, brink);
    var i := 0;
    while i * PGSIZE < sz
      invariant 0 <= i <= n && CopyState(x, k.m, k.g, p, d, i, lost, brink)
      decreases n - i
    {
      assert i < n <= UPAGES;
      ghost var m1, g1 := k.m, k.g;
      CopyFacts(x, m1, g1, p, d, i, lost, brink, cur);
      CopyReaches(x, m1, g1, p, d, i, lost, brink);
      if !HasTable(k.m.tabs, p, i / NENTRIES) {
        panic := true;
        return;
      }
      var e := Pte(k.m.tabs, p, i);
      var ok;
      ghost var more := lost;
      if Present(e) {
        LeavingEmpty(m1, g1, p, i);
        ok, more := CopyPresent(k, p, d, i, 2, x, lost);
        if Fits(x.m, x.g, p, brink) && i < brink {
          PaidPaying(m1, g1, k.m, k.g, p, d, i);
        }
      } else if e != 0 {
        ok, more := CopySwapped(k, p, d, i, cur, x, lost);
      } else {
        CopyEmpty(x, k.m, k.g, p, d, i, lost);
        PayingNone(k.m, k.g, p, d, i);
        ok := true;
      }
      CopyNext(x, m1, g1, k.m, k.g, p, d, i, lost, more, brink, ok);
      if !ok {
        Undo(k, p, d, i, x, lost);
        d := 0;
        return;
      }
      lost := more;
      i := i + 1;
    }
    CopyFacts(x, k.m, k.g, p, d, n, lost, brink, cur);
  }

  /**
   * Before brink nothing is lost and there are still frames for what is left; while the pages
   * are in memory nothing has left it and each frame is accounted for.
   */
  ghost predicate Thinning(x: Origin, m: M, g: G, p: nat, d: nat, i: nat, lost: set<nat>, brink: nat)
    requires Fits(x.m, x.g, p, brink)
  {
    && (forall v :: v in lost ==> v >= brink)
    && (i <= brink ==>
          && lost == {} && d < NFRAMES && TabsShaped(m.tabs) && TablesOf(m.tabs, d) <= KernelTables() + Spanning(0, i)
          && |g.free| + |TablesOf(m.tabs, d)| + i + |Outs(x.m, p, i)| + 1 >= |x.g.free|
          && (forall v :: i <= v < UPAGES && Present(Pte(x.m.tabs, p, v)) ==> Present(Pte(m.tabs, p, v))))
    && (i <= brink && Outs(x.m, p, i) == {} ==> Accounted(x, m, g, d, i))
    && (i > brink && Near(x.m, p, brink) ==>
          (brink in lost <==> |x.g.free| == Cost(brink) && Doomed(x.m, p, brink)))
  }

  ghost predicate Accounted(x: Origin, m: M, g: G, d: nat, i: nat) {
    && d < NFRAMES && SereneBut(x.m, x.g, m, d) && TablesOf(m.tabs, d) == KernelTables() + Spanning(0, i)
    && |g.free| + |TablesOf(m.tabs, d)| + i + 1 == |x.g.free|
  }

  /** Where copyuvm's loop stands at page i. */
  ghost predicate CopyState(x: Origin, m: M, g: G, p: nat, d: nat, i: nat, lost: set<nat>, brink: nat) {
    && Copying(x, m, g, p, d, i, lost) && NoneTaken(x.g, g) && Inv(x.m, x.g)
    && (Fits(x.m, x.g, p, brink) ==> Thinning(x, m, g, p, d, i, lost, brink))
  }

  lemma NearFits(x: Origin, p: nat, brink: nat)
    ensures Near(x.m, p, brink) && |x.g.free| == Cost(brink) ==> Fits(x.m, x.g, p, brink)
  {
    hide Pte, Cost, Outs;
    if Near(x.m, p, brink) {
      OutsFewer(x.m, p, brink, brink + 1);
    }
  }

  lemma CopyStart(x: Origin, m: M, g: G, p: nat, d: nat, brink: nat)
    requires Inv(x.m, x.g) && NewDir(x.m, x.g, m, g, d) && Shaped(m, g) && p < NFRAMES && x.g.own[p] == Dir(true)
    requires NoneTaken(x.g, g)
    requires KernelMapped(m.tabs, d, x.data, VPAGES) && forall v :: 0 <= v < UPAGES ==> Seen(m, g, d, v) == Unmapped
    requires |x.g.free| >= 10 ==>
      |g.free| == |x.g.free| - 10 && SereneBut(x.m, x.g, m, d) && TablesOf(m.tabs, d) == KernelTables()
    ensures CopyState(x, m, g, p, d, 0, {}, brink)
  {
    FitsTen(x, p, brink);
    NineTables();
    hide Inv, Pte, Seen, KernelMapped, NoneTaken, PageKept, PdeKept, Fits, KernelTables, TablesOf, Near;
    assert OwnerKept(x.g, g, Hole(d, 0, VPAGES), NFRAMES, p);
    assert KernelTables() + Spanning(0, 0) == KernelTables();
  }

  lemma FitsTen(x: Origin, p: nat, brink: nat)
    ensures Fits(x.m, x.g, p, brink) ==> |x.g.free| >= 10
  {
    NineTables();
    hide KernelTables, Spanning, Pte, Outs;
    Subset(KernelTables(), KernelTables() + Spanning(0, brink));
  }

  lemma CopyFacts(x: Origin, m: M, g: G, p: nat, d: nat, i: nat, lost: set<nat>, brink: nat, cur: int)
    requires CopyState(x, m, g, p, d, i, lost, brink) && |x.g.own| == NFRAMES && TabsShaped(x.m.tabs)
    ensures Copying(x, m, g, p, d, i, lost) && NoneTaken(x.g, g) && Inv(m, g) && Shaped(m, g) && 0 < d < NFRAMES
    ensures i !in lost && (forall v :: v in lost ==> v < i) && p != d && g.own[p].Dir?
    ensures |m.procs| == |x.m.procs| && (0 <= cur < |m.procs| ==> m.procs[cur].state == x.m.procs[cur].state)
    ensures forall j :: 0 <= j < NENTRIES && HasTable(x.m.tabs, p, j) ==> HasTable(m.tabs, p, j)
    ensures KernelMapped(m.tabs, d, x.data, VPAGES)
    ensures Fits(x.m, x.g, p, brink) ==>
      && (forall v :: v in lost ==> v >= brink)
      && (i > brink && Near(x.m, p, brink) ==>
            (brink in lost <==> |x.g.free| == Cost(brink) && Doomed(x.m, p, brink)))
  {
    hide TabsOk, PagesOk, SlotsOk, ProcsOk, Pte, Seen, KernelMapped, NoneTaken, PageKept, SereneBut, OwnerKept, ListOk,
         CopiedAt, Fits, Near, Doomed, TablesOf, KernelTables, Cost, Outs;
    forall j | 0 <= j < NENTRIES && HasTable(x.m.tabs, p, j) ensures HasTable(m.tabs, p, j) {
      assert PdeKept(x.m, x.g, m, g, p, j);
    }
  }

  /** Below brink there are frames for page i and its table. At brink the free list is as long as what was left over. */
  lemma CopyReaches(x: Origin, m: M, g: G, p: nat, d: nat, i: nat, lost: set<nat>, brink: nat)
    requires CopyState(x, m, g, p, d, i, lost, brink) && TabsShaped(m.tabs) && d < NFRAMES && p < NFRAMES
    requires TabsShaped(x.m.tabs) && i < UPAGES
    ensures Fits(x.m, x.g, p, brink) && i < brink ==>
      |g.free| >= (if Present(Pte(m.tabs, p, i)) then 1 else 2) + (if HasTable(m.tabs, d, i / NENTRIES) then 0 else 1)
    ensures Fits(x.m, x.g, p, brink) && i <= brink && Outs(x.m, p, i + 1) == {} ==> Present(Pte(m.tabs, p, i))
    ensures Fits(x.m, x.g, p, brink) && i == brink && Near(x.m, p, brink) ==>
      && Present(Pte(m.tabs, p, i)) && (g.free == [] <==> |x.g.free| == Cost(brink))
      && (Leaving(m, g, p, i) <==> |x.g.free| == Cost(brink) && Doomed(x.m, p, i))
      && (g.free == [] ==> forall y: nat :: Gives(x.m, x.g.(free := []), y) ==> Gives(m, g, y))
  {
    hide Inv, Pte, NoneTaken, KernelTables, Doomed, Gives, Copying, Span, KernelMapped, Outs, TablesOf, HasTable,
         Present;
    if Fits(x.m, x.g, p, brink) && i <= brink {
      CopyingApart(x, m, g, p, d, i, lost);
      OutsGrow(x.m, p, i);
      if i < brink {
        FrameLeft(x, m, g, p, d, i, brink);
      } else if Near(x.m, p, brink) {
        SameDoomed(x.m, x.g, m, d, p, i);
        if g.free == [] {
          forall y: nat | Gives(x.m, x.g.(free := []), y) ensures Gives(m, g, y) {
            SameGives(x.m, x.g, m, g, d, y);
          }
        }
      }
    }
  }

  lemma CopyingApart(x: Origin, m: M, g: G, p: nat, d: nat, i: nat, lost: set<nat>)
    requires Copying(x, m, g, p, d, i, lost)
    ensures p != d && |x.g.own| == NFRAMES && x.g.own[p].Dir? && d < NFRAMES && !x.g.own[d].Dir?
  {
  }

  lemma FrameLeft(x: Origin, m: M, g: G, p: nat, d: nat, i: nat, brink: nat)
    requires Fits(x.m, x.g, p, brink) && TabsShaped(m.tabs) && d < NFRAMES && i < brink
    requires TablesOf(m.tabs, d) <= KernelTables() + Spanning(0, i)
    requires |g.free| + |TablesOf(m.tabs, d)| + i + |Outs(x.m, p, i)| + 1 >= |x.g.free|
    ensures |g.free| >= (if Present(Pte(x.m.tabs, p, i)) then 1 else 2)
                        + (if HasTable(m.tabs, d, i / NENTRIES) then 0 else 1)
  {
    hide KernelTables, Pte, Outs, Present, HasTable, TablesOf, Spanning;
    OutsGrow(x.m, p, i);
    OutsFewer(x.m, p, i + 1, brink);
    SpanningGrows(0, i, brink);
    TableLeft(m.tabs, d, i / NENTRIES, KernelTables() + Spanning(0, brink));
  }

  lemma CopyEmpty(x: Origin, m: M, g: G, p: nat, d: nat, i: nat, lost: set<nat>)
    requires Copying(x, m, g, p, d, i, lost) && i < UPAGES && Pte(m.tabs, p, i) == 0
    ensures Copying(x, m, g, p, d, i + 1, lost)
  {
    hide FreeOk, TabsOk, PagesOk, SlotsOk, ProcsOk, Pte, Seen, KernelMapped, Quiet, Spoilt;
    UnmappedZero(m, g, p, i);
    assert CopiedAt(m, g, p, d, i, lost);
  }

  lemma CopyPays(x: Origin, m1: M, g1: G, m2: M, g2: G, p: nat, d: nat, i: nat, lost: set<nat>)
    requires Copying(x, m1, g1, p, d, i, lost) && Accounted(x, m1, g1, d, i)
    requires PaidFor(m1, g1, m2, g2, d, i) && i < UPAGES
    ensures Accounted(x, m2, g2, d, i + 1)
  {
    NewDirDirs(x.m, x.g, m1, g1, d);
    hide Copying, KernelTables, TablesOf, SereneBut;
    SereneTrans(x.m, x.g, m1, g1, m2, d);
    SpanningGrows(0, i, i + 1);
    hide Spanning;
    assert KernelTables() + Spanning(0, i) + {i / NENTRIES} == KernelTables() + (Spanning(0, i) + {i / NENTRIES});
  }

  lemma CopyNext(x: Origin, m1: M, g1: G, m2: M, g2: G, p: nat, d: nat, i: nat, lost: set<nat>, more: set<nat>,
          brink: nat, ok: bool)
    requires CopyState(x, m1, g1, p, d, i, lost, brink) && NoneTaken(x.g, g2) && TabsShaped(m1.tabs)
    requires TabsShaped(x.m.tabs) && d < NFRAMES && p < NFRAMES && i < UPAGES
    requires Copying(x, m2, g2, p, d, if ok then i + 1 else i, if ok then more else lost)
    requires (more == lost || more == lost + {i})
    requires Fits(x.m, x.g, p, brink) && i < brink ==>
      ok && more == lost && Paying(m1, g1, m2, g2, p, d, i, if Present(Pte(m1.tabs, p, i)) then 1 else 2)
    requires Fits(x.m, x.g, p, brink) && i < brink && Outs(x.m, p, i + 1) == {} ==> PaidFor(m1, g1, m2, g2, d, i)
    requires Fits(x.m, x.g, p, brink) && i == brink && Near(x.m, p, brink) && ok ==>
      (i in more <==> |x.g.free| == Cost(brink) && Doomed(x.m, p, i))
    ensures ok ==> CopyState(x, m2, g2, p, d, i + 1, more, brink)
  {
    hide Copying, NoneTaken, Pte, Inv, PaidFor, Doomed, KernelTables, TablesOf, SereneBut, Spanning, Outs, Accounted,
         Near, Cost, Present;
    if ok && Fits(x.m, x.g, p, brink) && i < brink {
      OutsGrow(x.m, p, i);
      SpanningStep(i);
      if Outs(x.m, p, i + 1) == {} {
        CopyPays(x, m1, g1, m2, g2, p, d, i, lost);
      }
    }
  }

  lemma SpanningStep(i: nat)
    requires i < UPAGES
    ensures KernelTables() + Spanning(0, i) + {i / NENTRIES} == KernelTables() + Spanning(0, i + 1)
  {
    SpanningGrows(0, i, i + 1);
    hide KernelTables, Spanning;
    assert KernelTables() + Spanning(0, i) + {i / NENTRIES} == KernelTables() + (Spanning(0, i) + {i / NENTRIES});
  }

  /** The failure path: the child is destroyed again. */
  method Undo(k: Machine, ghost p: nat, d: nat, ghost i: nat, ghost x: Origin, ghost lost: set<nat>)
    requires Inv(x.m, x.g) && NoneTaken(x.g, k.g) && Copying(x, k.m, k.g, p, d, i, lost)
    modifies k
    ensures k.Valid() && Quiet(x.m, x.g, k.m, k.g, NOWHERE, NFRAMES) && NoneTaken(x.g, k.g)
  {
    hide Inv, Quiet, NoneTaken, KernelMapped, CopiedAt, Seen;
    Abandon(k, d, x.m, x.g);
  }
}
