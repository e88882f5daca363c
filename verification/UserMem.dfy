/** Bringing pages back from their slots (swappage_in in pageswap.c). */
module UserMem {
  import opened Params
  import opened Paging
  import opened PageSteps
  import opened Victims
  import opened PageSwap
  import opened VmSteps
  import opened Vm

  // swappage_in.

  /** Between (m, g) and (m', g') entries only shrank, slots in use were kept, and frame t is newly held with this
      page in it. */
  ghost predicate Loaded(m: M, g: G, m': M, g': G, t: nat, page: seq<nat>) {
    && Inv(m', g') && Quiet(m, g, m', g', NOWHERE, NFRAMES) && Evicts(m, g, m', g') && FreshHeld(g, g', t)
    && m'.data[t] == page
  }

  lemma LoadedWrite(m: M, g: G, m1: M, g1: G, t: nat, page: seq<nat>)
    requires Still(m, g, m1, g1) && FreshHeld(g, g1, t) && |page| == PGSIZE
    ensures |m1.data| == NFRAMES && Loaded(m, g, m1.(data := m1.data[t := page]), g1, t, page)
  {
    hide FreeOk, TabsOk, PagesOk, SlotsOk, ProcsOk, PageKept, PdeKept, Pte;
    var m2 := m1.(data := m1.data[t := page]);
    HeldWritten(m1, g1, t, page);
    QuietTrans(m, g, m1, g1, m2, g1, NOWHERE, NFRAMES, t);
    assert forall d :: 0 <= d < NFRAMES && g.own[d].Dir? ==> OwnerKept(g, g1, NOWHERE, NFRAMES, d);
    EvictsTrans(m, g, m1, g1, m2, g1);
  }

  /** Page v of d was filled from a new frame; nobody else sees a change. */
  ghost predicate Brought(m: M, g: G, m': M, g': G, d: nat, v: nat, page: seq<nat>, perm: nat) {
    && Inv(m', g') && Quiet(m, g, m', g', Hole(d, v, v + 1), NFRAMES) && SlotsKept(m, g, m', g') && NoneTaken(g, g')
    && d < NFRAMES && v < UPAGES && perm < PGSIZE && g'.own[d] == g.own[d] && ShrinksBut(m, g, m', Hole(d, v, v + 1))
    && Present(Pte(m'.tabs, d, v)) && Flags(Pte(m'.tabs, d, v)) == perm + 1 - perm % 2
    && Seen(m', g', d, v) == Mapped(page, Perm(perm))
  }

  lemma BroughtIn(m: M, g: G, m2: M, g2: G, m3: M, g3: G, d: nat, v: nat, t: nat, page: seq<nat>, perm: nat)
    requires Loaded(m, g, m2, g2, t, page) && d < NFRAMES && |g.own| == NFRAMES && g.own[d].Dir? && v < UPAGES
    requires PageMapped(m2, g2, m3, g3, d, v, t, perm)
    ensures Brought(m, g, m3, g3, d, v, page, perm)
  {
    MapEntryFacts(t, perm);
    var h := Hole(d, v, v + 1);
    QuietAny(m, g, m2, g2, h, NFRAMES, NFRAMES);
    QuietTrans(m, g, m2, g2, m3, g3, h, NFRAMES, t);
    assert OwnerKept(g, g2, NOWHERE, NFRAMES, d);
    BroughtShrinks(m, g, m2, g2, m3, g3, d, v, t, page, perm);
    hide Inv, Quiet, Pte, Seen, MapEntry, Flags, Perm, ShrinksBut;
    forall s | 0 <= s < NSLOTS && !m.slots[s].isFree ensures SlotKept(m, g, m3, g3, s) {
      assert SlotKept(m, g, m2, g2, s) && SlotKept(m2, g2, m3, g3, s);
    }
  }

  lemma BroughtShrinks(m: M, g: G, m2: M, g2: G, m3: M, g3: G, d: nat, v: nat, t: nat, page: seq<nat>, perm: nat)
    requires Loaded(m, g, m2, g2, t, page) && PageMapped(m2, g2, m3, g3, d, v, t, perm)
    ensures ShrinksBut(m, g, m3, Hole(d, v, v + 1))
  {
    hide Inv, Pte, Seen, MapEntry, Flags, PageKept, PdeKept;
    forall d', v' | 0 <= d' < NFRAMES && g.own[d'].Dir? && 0 <= v' < UPAGES && (d' != d || v' != v)
      ensures Shrinks(Pte(m.tabs, d', v'), Pte(m3.tabs, d', v'), m.slots)
    {
      assert OwnerKept(g, g2, NOWHERE, NFRAMES, d');
      assert Shrinks(Pte(m.tabs, d', v'), Pte(m2.tabs, d', v'), m.slots);
      assert Shrinks(Pte(m2.tabs, d', v'), Pte(m3.tabs, d', v'), m2.slots);
      var s := FrameOf(Pte(m3.tabs, d', v'));
      assert s < NSLOTS && !m.slots[s].isFree ==> SlotKept(m, g, m2, g2, s);
    }
  }

  /** Bringing a page in changes no name of a slot in use, except the page's own. */
  lemma NamesAfter(m: M, g: G, m': M, g': G, d: nat, v: nat, page: seq<nat>, perm: nat, s: nat, d': nat, v': nat)
    requires Brought(m, g, m', g', d, v, page, perm) && s < NSLOTS && !m.slots[s].isFree
    ensures Names(m'.tabs, g'.own, d', v', s) <==> Names(m.tabs, g.own, d', v', s) && !(d' == d && v' == v)
  {
    hide Inv, Pte, Seen, PageKept, PdeKept, Flags, Perm, SlotsKept, NoneTaken;
    if d' < NFRAMES {
      assert OwnerKept(g, g', Hole(d, v, v + 1), NFRAMES, d');
      if g.own[d'].Dir? && v' < UPAGES && !(d' == d && v' == v) {
        assert Shrinks(Pte(m.tabs, d', v'), Pte(m'.tabs, d', v'), m.slots);
      }
    }
  }

  /** A freed slot that is still named breaks the invariant, whatever the counters say. */
  lemma NamedMeansUsed(m: M, g: G, d: nat, v: nat, s: nat)
    requires Shaped(m, g) && s < NSLOTS && m.slots[s].isFree && Names(m.tabs, g.own, d, v, s)
    ensures !Inv(m, g)
  {
    if Inv(m, g) {
      EntrySlot(m, g, d, v);
    }
  }

  /** Page v of d is back: same bytes and flags for the process, its slot free, nothing else changed. */
  ghost predicate BackIn(m: M, g: G, m': M, g': G, d: nat, v: nat) {
    && Inv(m', g') && Quiet(m, g, m', g', NOWHERE, NFRAMES) && NoneTaken(g, g')
    && d < NFRAMES && v < UPAGES && g'.own[d] == g.own[d]
    && var e, e' := Pte(m.tabs, d, v), Pte(m'.tabs, d, v);
    && Seen(m', g', d, v) == Seen(m, g, d, v)
    && !Present(e) && e != 0 && Present(e') && Flags(e') == Flags(e) + 1
    && FrameOf(e) < NSLOTS && m'.slots[FrameOf(e)] == Slot(0, true)
    && forall s :: 0 <= s < NSLOTS && s != FrameOf(e) && !m.slots[s].isFree ==> SlotKept(m, g, m', g', s)
  }

  lemma PermOfSlot(e: nat)
    requires !Present(e)
    ensures Flags(e) + 1 < PGSIZE && (Flags(e) + 1) % 2 == 1 && Perm(Flags(e) + 1) == Perm(e)
  {
    FlagsLow(e);
    assert Flags(e) != 4095;
    var x := Flags(e) + 1;
    hide Bare, ClearAccessed;
    BareOdd(x);
    assert Flags(x) == x;
  }

  lemma BackInOk(m: M, g: G, m3: M, g3: G, m4: M, m5: M, d: nat, v: nat)
    requires Inv(m, g) && d < NFRAMES && g.own[d] == Dir(true) && v < UPAGES && !Present(Pte(m.tabs, d, v))
    requires Pte(m.tabs, d, v) != 0
    requires FrameOf(Pte(m.tabs, d, v)) < NSLOTS
    requires var s := FrameOf(Pte(m.tabs, d, v)); Brought(m, g, m3, g3, d, v, SlotPage(m.disk, s), m.slots[s].perm)
    requires m4 == m3.(slots := m3.slots[FrameOf(Pte(m.tabs, d, v)) := Slot(0, true)])
    requires m5 == m4.(procs := m5.procs) && |m5.procs| == |m4.procs|
    requires forall p :: 0 <= p < |m4.procs| ==> m5.procs[p] == m4.procs[p].(rss := m5.procs[p].rss)
    requires forall p :: 0 <= p < |m4.procs| && m4.procs[p].state == Embryo ==> m5.procs[p].rss == m4.procs[p].rss
    ensures BackIn(m, g, m5, g3, d, v)
  {
    hide Inv, Quiet, Seen, Perm, SlotPage, Pte, FrameOf, Flags;
    Shapes(m, g);
    var e := Pte(m.tabs, d, v);
    var s := FrameOf(e);
    BroughtInv(m, g, m3, g3, d, v, SlotPage(m.disk, s), m.slots[s].perm);
    EntrySlot(m, g, d, v);
    PermOfSlot(e);
    Released(m, g, m3, g3, d, v, SlotPage(m.disk, s), m.slots[s].perm, s);
    CountersKeep(m4, g3, m5);
    var h := Hole(d, v, v + 1);
    QuietAny(m3, g3, m4, g3, h, NFRAMES, NFRAMES);
    QuietTrans(m, g, m3, g3, m4, g3, h, NFRAMES, NFRAMES);
    QuietAny(m4, g3, m5, g3, h, NFRAMES, NFRAMES);
    QuietTrans(m, g, m4, g3, m5, g3, h, NFRAMES, NFRAMES);
    BackSeen(m, g, m3, g3, m4, m5, d, v);
    HoleFilled(m, g, m5, g3, d, v);
    forall s' | 0 <= s' < NSLOTS && s' != s && !m.slots[s'].isFree ensures SlotKept(m, g, m5, g3, s') {
      assert SlotKept(m, g, m3, g3, s');
    }
  }

  /** A hole of one page that looks the same is no hole. */
  lemma HoleFilled(m: M, g: G, m': M, g': G, d: nat, v: nat)
    requires Quiet(m, g, m', g', Hole(d, v, v + 1), NFRAMES) && d < NFRAMES && v < UPAGES
    requires Seen(m', g', d, v) == Seen(m, g, d, v)
    ensures Quiet(m, g, m', g', NOWHERE, NFRAMES)
  {
    hide Seen, Pte, PdeKept;
    forall f | 0 <= f < NFRAMES ensures OwnerKept(g, g', NOWHERE, NFRAMES, f) {
      assert OwnerKept(g, g', Hole(d, v, v + 1), NFRAMES, f);
    }
    forall d', v' | 0 <= d' < NFRAMES && g.own[d'].Dir? && 0 <= v' < VPAGES ensures PageKept(m, g, m', g', d', v') {
      assert !(d' == d && v' == v) ==> PageKept(m, g, m', g', d', v');
    }
  }

  lemma Released(m: M, g: G, m3: M, g3: G, d: nat, v: nat, page: seq<nat>, perm: nat, s: nat)
    requires Inv(m, g) && Brought(m, g, m3, g3, d, v, page, perm) && s < NSLOTS && Names(m.tabs, g.own, d, v, s)
    ensures var m4 := m3.(slots := m3.slots[s := Slot(0, true)]); Inv(m4, g3) && Quiet(m3, g3, m4, g3, NOWHERE, NFRAMES)
  {
    hide Inv, Quiet, Brought;
    Shapes(m, g);
    SlotNamedOnce(m, g, d, v, d, v, s);
    BroughtInv(m, g, m3, g3, d, v, page, perm);
    forall d', v' ensures !Names(m3.tabs, g3.own, d', v', s) {
      NamesAfter(m, g, m3, g3, d, v, page, perm, s, d', v');
      if Names(m.tabs, g.own, d', v', s) {
        SlotNamedOnce(m, g, d, v, d', v', s);
      }
    }
    SlotReleased(m3, g3, s);
  }

  lemma BroughtInv(m: M, g: G, m': M, g': G, d: nat, v: nat, page: seq<nat>, perm: nat)
    requires Brought(m, g, m', g', d, v, page, perm)
    ensures Inv(m', g') && Shaped(m', g') && Policy(m') && |m'.procs| == |m.procs|
    ensures forall p :: 0 <= p < |m.procs| ==> m'.procs[p].state == m.procs[p].state
  {
  }

  lemma BackSeen(m: M, g: G, m3: M, g3: G, m4: M, m5: M, d: nat, v: nat)
    requires Inv(m, g) && d < NFRAMES && g.own[d] == Dir(true) && v < UPAGES && !Present(Pte(m.tabs, d, v))
    requires Pte(m.tabs, d, v) != 0
    requires FrameOf(Pte(m.tabs, d, v)) < NSLOTS
    requires m.slots[FrameOf(Pte(m.tabs, d, v))].perm == Flags(Pte(m.tabs, d, v)) + 1
    requires var s := FrameOf(Pte(m.tabs, d, v)); Brought(m, g, m3, g3, d, v, SlotPage(m.disk, s), m.slots[s].perm)
    requires Shaped(m4, g3) && m4 == m3.(slots := m4.slots) && m5 == m4.(procs := m5.procs)
    ensures Shaped(m5, g3) && Seen(m5, g3, d, v) == Seen(m, g, d, v)
  {
    hide FreeOk, TabsOk, PagesOk, SlotsOk, ProcsOk, Quiet, SlotsKept, ShrinksBut, NoneTaken, Pte, Perm, SlotPage,
         Flags, FrameOf;
    PermOfSlot(Pte(m.tabs, d, v));
    SeenSame(m3, g3, m5, d, v);
  }

  /** An all-zero entry that swappage_in refuses: no page table, or slot 0, which it reads the entry as, is free. */
  predicate Blank(m: M, d: nat, v: nat)
    requires TabsShaped(m.tabs) && d < NFRAMES && v < VPAGES && |m.slots| == NSLOTS
  {
    Pte(m.tabs, d, v) == 0 && (!HasTable(m.tabs, d, v / NENTRIES) || m.slots[0].isFree)
  }

  lemma CalmOffSame(m: M, g: G, m1: M, m2: M, d: nat, v: nat)
    requires CalmOff(m, g, m1, d, v) && m2.tabs == m1.tabs
    ensures CalmOff(m, g, m2, d, v)
  {
    hide Pte;
  }

  ghost predicate SlotZeroNamed(m: M, g: G)
    requires Shaped(m, g)
  {
    exists d, v :: Names(m.tabs, g.own, d, v, 0)
  }

  function Counted(procs: seq<Proc>, cur: int): seq<Proc> {
    if 0 <= cur < |procs| then procs[cur := procs[cur].(rss := (procs[cur].rss + 1) % UINT)] else procs
  }

  /** A page in and out again leaves its process's count as it was; in between it is one more, short of the wrap. */
  lemma InAndOut(procs: seq<Proc>, cur: nat)
    requires cur < |procs|
    ensures |Counted(procs, cur)| == |procs| && Less(Counted(procs, cur), cur, 1) == procs
    ensures procs[cur].rss < 0xffff_ffff ==> Counted(procs, cur)[cur].rss == procs[cur].rss + 1
    ensures procs[cur].rss > 0 ==> Less(procs, cur, 1)[cur].rss == procs[cur].rss - 1
    ensures Counted(procs, -1) == procs
  {
    var x := procs[cur].rss;
    assert ((x + 1) % UINT - 1) % UINT == x;
    assert Less(Counted(procs, cur), cur, 1)[cur] == procs[cur];
  }

  /** Slot s was given back and the current process counts one page more. */
  ghost predicate Installed(m: M, m': M, s: nat, cur: int) {
    && s < |m.slots| && m'.slots == m.slots[s := Slot(0, true)] && m'.procs == Counted(m.procs, cur)
    && m'.npages == m.npages
  }

  lemma RowsTrans(m0: M, g0: G, m1: M, g1: G, m2: M)
    requires DirRows(m0, g0, m1) && DirRows(m1, g1, m2)
    requires forall x :: 0 <= x < NFRAMES && g0.own[x].Dir? ==> g1.own[x].Dir?
    ensures DirRows(m0, g0, m2)
  {
  }

  lemma RowsRefl(m: M, g: G)
    requires Shaped(m, g)
    ensures DirRows(m, g, m)
  {
  }

  lemma RowAt(m: M, g: G, m': M, d: nat)
    requires DirRows(m, g, m') && d < NFRAMES && g.own[d].Dir?
    ensures |m'.tabs| == NFRAMES && m'.tabs[d] == m.tabs[d]
  {
  }

  /**
   * swappage_in. A swapped-out page comes back with its bytes and flags and every other
   * page of every live process looks the same. An all-zero entry is read as slot 0: if
   * that slot is in use its page is mapped here and the slot freed, which keeps the
   * invariant exactly when no live entry names slot 0. A kernel page, which a fault may name
   * too, is present or has no table.
   */
  method SwapIn(k: Machine, d: nat, v: nat, cur: int) returns (r: int)
    requires k.Valid() && d < NFRAMES && k.g.own[d] == Dir(true) && v < VPAGES
    requires v >= UPAGES ==> Present(Pte(k.m.tabs, d, v)) || !HasTable(k.m.tabs, d, v / NENTRIES)
    requires cur < |k.m.procs| && (cur >= 0 ==> k.m.procs[cur].state == Ready)
    modifies k
    ensures r == 0 || r == -1
    ensures r == -1 ==> k.Valid() && Quiet(old(k.m), old(k.g), k.m, k.g, NOWHERE, NFRAMES) && NoneTaken(old(k.g), k.g)
    ensures |k.m.tabs| == NFRAMES && k.m.tabs[d] == old(k.m).tabs[d] && DirRows(old(k.m), old(k.g), k.m)
    ensures Pte(old(k.m).tabs, d, v) != 0 ==>
      (r == -1 <==> !Present(Pte(old(k.m).tabs, d, v)) && old(k.g).free == [] && Stuck(old(k.m)))
    ensures Pte(old(k.m).tabs, d, v) == 0 ==>
      (r == -1 <==> Blank(old(k.m), d, v) || (old(k.g).free == [] && Stuck(old(k.m))))
    ensures Blank(old(k.m), d, v) ==> k.m == old(k.m) && k.g == old(k.g)
    ensures r == -1 && !Blank(old(k.m), d, v) ==> k.g.free == [] && Stuck(k.m)
    ensures Present(Pte(old(k.m).tabs, d, v)) ==> r == 0 && k.m == old(k.m) && k.g == old(k.g)
    ensures r == 0 && !Present(Pte(old(k.m).tabs, d, v)) && Pte(old(k.m).tabs, d, v) != 0 ==>
      BackIn(old(k.m), old(k.g), k.m, k.g, d, v)
    ensures r == 0 && Pte(old(k.m).tabs, d, v) == 0 ==> (k.Valid() <==> !SlotZeroNamed(old(k.m), old(k.g)))
    ensures r == 0 && !Present(Pte(old(k.m).tabs, d, v)) ==> Gives(old(k.m), old(k.g), |k.g.free| + 1)
    ensures old(k.g).free != [] ==> CalmOff(old(k.m), old(k.g), k.m, d, v)
    ensures old(k.g).free != [] && r == 0 && !Present(Pte(old(k.m).tabs, d, v)) ==>
      Installed(old(k.m), k.m, FrameOf(Pte(old(k.m).tabs, d, v)), cur)
  {
    hide Inv, Still, Quiet, Pte, FreshHeld, NoneTaken, Addr, FrameAt, SlotZeroNamed, BackIn, Brought, Loaded, SlotPage,
         DirRows, Stuck, Gives, LeftOnly, CalmBut, CalmOff, JustFrees, HasTable, Flags, SlotOk, FreeSlots, FrameOf;
    ghost var m0, g0 := k.m, k.g;
    Shapes(m0, g0);
    NoneTakenRefl(g0);
    StillRefl(m0, g0);
    StillQuiet(m0, g0, m0, g0);
    CalmRefl(m0, g0, NFRAMES);
    CalmWeak(m0, g0, m0, d, v);
    RowsRefl(m0, g0);
    if !HasTable(k.m.tabs, d, v / NENTRIES) {
      AbsentZero(k.m.tabs, d, v);
      return -1;
    }
    var e := Pte(k.m.tabs, d, v);
    if Present(e) { return 0; }
    var s := FrameOf(e);
    if e == 0 {
      ZeroFrame(e);
    }
    EntrySlot(m0, g0, d, v);
    if s >= NSLOTS || k.m.slots[s].isFree { return -1; }
    var a := KAllocRetry(k, 1);
    ghost var m1, g1 := k.m, k.g;
    StillDirs(m0, g0, m1, g1);
    if g0.free != [] {
      CalmWeak(m0, g0, m1, d, v);
    }
    RowTable(m0, g0, k.m, k.g, d, v / NENTRIES);
    if a == 0 {
      StillQuiet(m0, g0, k.m, k.g);
      return -1;
    }
    Install(k, d, v, FrameAt(a), s, cur, m0, g0);
    RowsTrans(m0, g0, m1, g1, k.m);
    if g0.free != [] {
      CalmOffTrans(m0, g0, m1, g1, k.m, d, v);
    }
    return 0;
  }

  /** A directory with the tables that setupkvm made and tables of user pages is one that SwapIn may be asked about. */
  lemma KernelFault(tabs: Tables, d: nat, data: nat, v: nat)
    requires KernelMapped(tabs, d, data, VPAGES) && UPAGES <= v < VPAGES
    requires forall i :: i in TablesOf(tabs, d) ==> i < UPAGES / NENTRIES || i in KernelTables()
    ensures Present(Pte(tabs, d, v)) || !HasTable(tabs, d, v / NENTRIES)
  {
    if HasTable(tabs, d, v / NENTRIES) {
      assert v / NENTRIES in TablesOf(tabs, d);
      assert v / NENTRIES == 512 || v >= DEVPAGE;
      MapEntryFacts(v, W);
      MapEntryFacts(v - UPAGES, W);
      MapEntryFacts(v - UPAGES, 0);
      hide Pte, HasTable, TablesOf, KernelTables, MapEntry;
    }
  }

  /** The rest of swappage_in, once it has frame t: the page is read in and mapped, its slot freed, rss counted up. */
  method Install(k: Machine, d: nat, v: nat, t: nat, s: nat, cur: int, ghost m0: M, ghost g0: G)
    requires Inv(m0, g0) && Shaped(m0, g0) && d < NFRAMES && g0.own[d] == Dir(true) && v < UPAGES
    requires !Present(Pte(m0.tabs, d, v)) && s == FrameOf(Pte(m0.tabs, d, v)) < NSLOTS && !m0.slots[s].isFree
    requires Still(m0, g0, k.m, k.g) && FreshHeld(g0, k.g, t)
    requires TabsShaped(k.m.tabs) && HasTable(k.m.tabs, d, v / NENTRIES)
    requires cur < |m0.procs| && (cur >= 0 ==> m0.procs[cur].state == Ready)
    modifies k
    ensures |k.m.tabs| == NFRAMES && k.m.tabs[d] == old(k.m).tabs[d] && DirRows(old(k.m), old(k.g), k.m)
    ensures Installed(old(k.m), k.m, s, cur)
    ensures Pte(m0.tabs, d, v) != 0 ==> BackIn(m0, g0, k.m, k.g, d, v)
    ensures Pte(m0.tabs, d, v) == 0 ==> (k.Valid() <==> !SlotZeroNamed(m0, g0))
    ensures |k.g.free| == |old(k.g).free| && CalmOff(old(k.m), old(k.g), k.m, d, v)
  {
    hide Inv, Still, Quiet, Pte, FreshHeld, NoneTaken, SlotZeroNamed, BackIn, Brought, SlotPage, CalmOff, HasTable,
         Flags, SlotOk, Present, DirRows;
    ghost var e := Pte(m0.tabs, d, v);
    ghost var m1, g1 := k.m, k.g;
    StillDir(m0, g0, m1, g1, d);
    BringIn(k, d, v, t, s, m0, g0);
    ghost var m3, g3 := k.m, k.g;
    BroughtInv(m0, g0, m3, g3, d, v, SlotPage(m0.disk, s), m0.slots[s].perm);
    k.FreeSlot(s);
    ghost var m4 := k.m;
    k.m := k.m.(procs := Counted(k.m.procs, cur));
    CalmOffSame(m1, g1, m3, k.m, d, v);
    RowsSame(m1, g1, m3, k.m);
    RowAt(m1, g1, k.m, d);
    if e != 0 {
      BackInOk(m0, g0, m3, g3, m4, k.m, d, v);
    } else {
      ZeroFrame(e);
      ZeroBack(m0, g0, m3, g3, m4, k.m, d, v);
    }
  }

  lemma RowsSame(m: M, g: G, m1: M, m2: M)
    requires DirRows(m, g, m1) && m2.tabs == m1.tabs
    ensures DirRows(m, g, m2)
  {
  }

  lemma ZeroFrame(e: nat)
    requires e == 0
    ensures FrameOf(e) == 0
  {
  }

  lemma RowTable(m: M, g: G, m': M, g': G, d: nat, i: nat)
    requires Still(m, g, m', g') && DirRows(m, g, m') && TabsShaped(m.tabs) && d < NFRAMES && g.own[d].Dir?
    requires i < NENTRIES
    ensures TabsShaped(m'.tabs) && m'.tabs[d] == m.tabs[d] && HasTable(m'.tabs, d, i) == HasTable(m.tabs, d, i)
  {
  }

  /** The page of slot s is read into frame t, which is then mapped; as the page table exists, mappages cannot fail. */
  method BringIn(k: Machine, d: nat, v: nat, t: nat, s: nat, ghost m0: M, ghost g0: G)
    requires Inv(m0, g0) && d < NFRAMES && g0.own[d] == Dir(true) && v < UPAGES && !Present(Pte(m0.tabs, d, v))
    requires s < NSLOTS
    requires !m0.slots[s].isFree
    requires Still(m0, g0, k.m, k.g) && FreshHeld(g0, k.g, t)
    requires TabsShaped(k.m.tabs) && HasTable(k.m.tabs, d, v / NENTRIES)
    modifies k
    ensures Brought(m0, g0, k.m, k.g, d, v, SlotPage(m0.disk, s), m0.slots[s].perm)
    ensures DirRows(old(k.m), old(k.g), k.m) && Unmoved(old(k.m), k.m)
    ensures |k.g.free| == |old(k.g).free| && CalmOff(old(k.m), old(k.g), k.m, d, v)
  {
    hide Inv, Still, Quiet, Pte, NoneTaken, Addr, FrameAt, Brought, Loaded, SlotPage, PageMapped, Frugal, HasTable,
         CalmOff, Stuck, Evicts, FreeOk, OwnerKept, DirRows;
    ghost var m1, g1 := k.m, k.g;
    StillShaped(m0, g0, m1, g1);
    Shapes(m0, g0);
    StillKeepsSlot(m0, g0, m1, g1, s);
    StillDir(m0, g0, m1, g1, d);
    var page := k.LoadPage(s);
    LoadedWrite(m0, g0, m1, g1, t, page);
    k.m := k.m.(data := k.m.data[t := page]);
    LoadedFacts(m0, g0, k.m, k.g, t, page, d, v);
    var perm := k.m.slots[s].perm;
    ghost var m2, g2 := k.m, k.g;
    var r := MapPage(k, d, v, t, perm);
    BroughtIn(m0, g0, m2, g2, k.m, k.g, d, v, t, page, perm);
    FrugalSame(m1, m2, g2, k.m, k.g, d, v, r);
    RowsFrom(m1, m2, g2, k.m);
  }

  lemma RowsFrom(m: M, m1: M, g: G, m2: M)
    requires DirRows(m1, g, m2) && m1.tabs == m.tabs
    ensures DirRows(m, g, m2)
  {
  }

  lemma LoadedFacts(m: M, g: G, m': M, g': G, t: nat, page: seq<nat>, d: nat, v: nat)
    requires Loaded(m, g, m', g', t, page) && d < NFRAMES && |g.own| == NFRAMES && g.own[d].Dir? && v < UPAGES
    ensures Inv(m', g') && Shaped(m', g') && g'.own[d] == g.own[d] && t < NFRAMES && g'.own[t].Taken?
    ensures TabsShaped(m.tabs)
    ensures !Present(Pte(m.tabs, d, v)) ==> !Present(Pte(m'.tabs, d, v))
  {
    assert OwnerKept(g, g', NOWHERE, NFRAMES, d);
    assert Shrinks(Pte(m.tabs, d, v), Pte(m'.tabs, d, v), m.slots);
  }

  /** kfree of a frame that could not be mapped. */
  method GiveBack(k: Machine, t: nat, ghost m0: M, ghost g0: G, ghost m2: M, ghost g2: G, ghost page: seq<nat>)
    requires Loaded(m0, g0, m2, g2, t, page) && Still(m2, g2, k.m, k.g) && NoneTaken(g2, k.g)
    modifies k
    ensures k.Valid() && Quiet(m0, g0, k.m, k.g, NOWHERE, NFRAMES) && NoneTaken(g0, k.g)
    ensures |k.m.tabs| == |old(k.m).tabs| == NFRAMES && forall x :: 0 <= x < NFRAMES && x != t ==>
      k.m.tabs[x] == old(k.m).tabs[x]
  {
    hide Inv, Quiet, Addr, FrameAt, Evicts, Still;
    ghost var m3, g3 := k.m, k.g;
    StillHeld(m2, g2, m3, g3, t);
    StillShaped(m2, g2, m3, g3);
    StillQuiet(m2, g2, m3, g3);
    QuietTrans(m0, g0, m2, g2, m3, g3, NOWHERE, NFRAMES, NFRAMES);
    FreeKeeps(m3, g3, t);
    NotReserved(m3, g3, t);
    var panic := k.KFree(Addr(t));
    QuietTrans(m0, g0, m3, g3, k.m, k.g, NOWHERE, NFRAMES, t);
  }

  lemma ZeroBack(m: M, g: G, m3: M, g3: G, m4: M, m5: M, d: nat, v: nat)
    requires Inv(m, g) && d < NFRAMES && g.own[d] == Dir(true) && v < UPAGES && Pte(m.tabs, d, v) == 0
    requires !m.slots[0].isFree
    requires Brought(m, g, m3, g3, d, v, SlotPage(m.disk, 0), m.slots[0].perm)
    requires m4 == m3.(slots := m3.slots[0 := Slot(0, true)]) && m5 == m4.(procs := m5.procs)
    requires |m5.procs| == |m4.procs|
    requires forall p :: 0 <= p < |m4.procs| ==> m5.procs[p] == m4.procs[p].(rss := m5.procs[p].rss)
    requires forall p :: 0 <= p < |m4.procs| && m4.procs[p].state == Embryo ==> m5.procs[p].rss == m4.procs[p].rss
    ensures Inv(m5, g3) <==> !SlotZeroNamed(m, g)
  {
    hide Inv, Quiet, Brought, Pte, SlotPage;
    Shapes(m, g);
    BroughtInv(m, g, m3, g3, d, v, SlotPage(m.disk, 0), m.slots[0].perm);
    if SlotZeroNamed(m, g) {
      var d', v' :| Names(m.tabs, g.own, d', v', 0);
      NamesAfter(m, g, m3, g3, d, v, SlotPage(m.disk, 0), m.slots[0].perm, 0, d', v');
      NamedMeansUsed(m5, g3, d', v', 0);
    } else {
      forall d', v' ensures !Names(m3.tabs, g3.own, d', v', 0) {
        NamesAfter(m, g, m3, g3, d, v, SlotPage(m.disk, 0), m.slots[0].perm, 0, d', v');
      }
      SlotReleased(m3, g3, 0);
      CountersKeep(m4, g3, m5);
    }
  }

  // A machine on which swapping in an all-zero entry takes another page's slot.

  function ExampleTabs(): (r: Tables)
    ensures TabsShaped(r)
  {
    var empty := Filled(0, NENTRIES);
    var dir := [2 * PGSIZE + 7] + Filled(0, NENTRIES - 1);
    var table := [6] + Filled(0, NENTRIES - 1);
    seq(NFRAMES, f => if f == 1 then dir else if f == 2 then table else empty)
  }

  ghost function ExampleOwn(): (r: Owners)
    ensures |r| == NFRAMES
  {
    seq(NFRAMES, f =>
      if f == 0 then Reserved else if f == 1 then Dir(true) else if f == 2 then Table(1, 0)
      else if f == 3 then Free(0) else Taken)
  }

  lemma ExampleEntries(v: nat)
    requires v < VPAGES
    ensures Pte(ExampleTabs(), 1, v) == if v == 0 then 6 else 0
    ensures HasTable(ExampleTabs(), 1, 0)
  {
    var tabs := ExampleTabs();
    assert Pde(tabs, 1, 0) == 2 * PGSIZE + 7 && (forall i :: 0 < i < NENTRIES ==> Pde(tabs, 1, i) == 0);
    Built(2, 7);
  }

  lemma ExampleTabsOk()
    ensures TabsOk(ExampleTabs(), ExampleOwn())
  {
    var tabs, own := ExampleTabs(), ExampleOwn();
    assert Pde(tabs, 1, 0) == 2 * PGSIZE + 7 && (forall i :: 0 < i < NENTRIES ==> Pde(tabs, 1, i) == 0);
    Built(2, 7);
    forall d, i | 0 <= d < NFRAMES && own[d].Dir? && 0 <= i < NENTRIES ensures PdeOk(tabs, own, d, i) {
      assert d == 1;
    }
  }

  function ExampleM(): M {
    var blank := Filled(0, PGSIZE);
    var slots := seq(NSLOTS, s => if s == 0 then Slot(7, false) else Slot(0, true));
    var block := Filled(0, BSIZE);
    var disk := seq(SWAPSTART + NSLOTS * SLOTBLOCKS, b => block);
    M(seq(NFRAMES, f => if f == 3 then Junk(0) else blank), ExampleTabs(), Filled(0, NFRAMES), Addr(3), 1,
      slots, disk, [], 100, 4)
  }

  ghost function ExampleG(): G { G(ExampleOwn(), [3], seq(NSLOTS, s => (1, 0))) }

  /** Page 1 of directory 1 is unmapped, page 0 is in slot 0 and one frame is free. */
  lemma ZeroEntryExample()
    ensures var m, g := ExampleM(), ExampleG();
      && Inv(m, g) && g.own[1] == Dir(true) && Pte(m.tabs, 1, 1) == 0 && HasTable(m.tabs, 1, 0)
      && !m.slots[0].isFree && g.free != [] && SlotZeroNamed(m, g)
  {
    var m, g := ExampleM(), ExampleG();
    hide Junk, Filled, Addr, ExampleTabs, Pte;
    ExampleTabsOk();
    ExampleEntries(1);
    ExampleEntries(0);
    assert FreeFrame(m.data, m.link, g.free, 3, 0);
    forall d, v | 0 <= d < NFRAMES && g.own[d].Dir? && 0 <= v < UPAGES
      ensures PageOk(m.tabs, g.own, d, v) && SlotOk(Pte(m.tabs, d, v), d, v, m.slots, g.sown)
    {
      ExampleEntries(v);
    }
    assert Names(m.tabs, g.own, 1, 0, 0);
  }

  /** On that machine swappage_in of page 1 succeeds and leaves page 0 naming a free slot. */
  method ZeroEntryBreaks() returns (k: Machine, r: int)
    ensures r == 0 && !k.Valid()
  {
    hide Inv, ExampleM, ExampleG, Pte, Stuck, SlotZeroNamed, BackIn, Gives, CalmOff;
    ZeroEntryExample();
    k := new Machine.At(ExampleM(), ExampleG(), 25, 10);
    r := SwapIn(k, 1, 1, -1);
  }
}
