/** Page tables and address spaces (vm.c). */
module Vm {
  import opened Paging
  import opened PageSteps
  import opened Victims
  import opened PageSwap
  import opened VmSteps

  ghost predicate NoneTaken(g: G, g': G) {
    |g.own| == |g'.own| == NFRAMES && forall x :: 0 <= x < NFRAMES && g'.own[x].Taken? ==> g.own[x].Taken?
  }

  lemma TabledStill(a: M, ga: G, b: M, gb: G, d: nat, i: nat, addr: nat)
    requires Still(a, ga, b, gb) && Handed(a, ga, b, gb, addr) && d < NFRAMES && ga.own[d].Dir? && i < NENTRIES
    requires !Present(Pde(b.tabs, d, i))
    ensures var t := FrameAt(addr);
      && t != d
      && TabledOk(b, gb, b.(tabs := TabledTabs(b.tabs, d, i, t)), gb.(own := gb.own[t := Table(d, i)]), d, i, t)
      && Still(a, ga, b.(tabs := TabledTabs(b.tabs, d, i, t)), gb.(own := gb.own[t := Table(d, i)]))
      && NoneTaken(ga, gb.(own := gb.own[t := Table(d, i)]))
      && HasTable(TabledTabs(b.tabs, d, i, t), d, i)
      && (Calm(a, ga, b) ==> Calm(a, ga, b.(tabs := TabledTabs(b.tabs, d, i, t))))
  {
    hide FrameAt, Addr, TabledTabs, FreeOk, TabsOk, PagesOk, SlotsOk, ProcsOk, PageKept, PdeKept, Pte;
    StillDir(a, ga, b, gb, d);
    var t := FrameAt(addr);
    var c, gc := b.(tabs := TabledTabs(b.tabs, d, i, t)), gb.(own := gb.own[t := Table(d, i)]);
    TabledEntries(b, gb, d, i, t);
    TabledKeeps(b, gb, c, gc, d, i, t);
    QuietTrans(a, ga, b, gb, c, gc, NOWHERE, NFRAMES, t);
    assert forall x :: 0 <= x < NFRAMES && ga.own[x].Dir? ==> OwnerKept(ga, gb, NOWHERE, NFRAMES, x);
    EvictsTrans(a, ga, b, gb, c, gc);
  }

  lemma StillPde(m: M, g: G, m': M, g': G, d: nat, i: nat)
    requires Still(m, g, m', g') && d < NFRAMES && |g.own| == NFRAMES && g.own[d].Dir? && i < NENTRIES
    ensures TabsShaped(m.tabs) && TabsShaped(m'.tabs) && (HasTable(m.tabs, d, i) ==> HasTable(m'.tabs, d, i))
    ensures Present(Pde(m'.tabs, d, i)) ==> HasTable(m'.tabs, d, i) && Open(Pde(m'.tabs, d, i))
  {
    assert PdeKept(m, g, m', g', d, i);
    StillDir(m, g, m', g', d);
    assert PdeOk(m'.tabs, g'.own, d, i);
  }

  /** The page table for v is there, and a frame was spent on it exactly if it was not before. */
  ghost predicate Spent(m: M, g: G, m': M, g': G, d: nat, v: nat) {
    && TabsShaped(m.tabs) && TabsShaped(m'.tabs) && d < NFRAMES
    && TablesOf(m'.tabs, d) == TablesOf(m.tabs, d) + {v / NENTRIES}
    && |g'.free| + |TablesOf(m'.tabs, d)| == |g.free| + |TablesOf(m.tabs, d)|
  }

  lemma SpentNone(m: M, g: G, d: nat, v: nat)
    requires TabsShaped(m.tabs) && d < NFRAMES && v < VPAGES && HasTable(m.tabs, d, v / NENTRIES)
    ensures Spent(m, g, m, g, d, v)
  {
    assert v / NENTRIES in TablesOf(m.tabs, d);
    assert TablesOf(m.tabs, d) + {v / NENTRIES} == TablesOf(m.tabs, d);
  }

  lemma SpentOne(m: M, g: G, m1: M, g1: G, m2: M, g2: G, d: nat, v: nat, t: nat)
    requires TabsShaped(m.tabs) && TabsShaped(m1.tabs) && d < NFRAMES && v < VPAGES
    requires !HasTable(m.tabs, d, v / NENTRIES)
    requires m1.tabs[d] == m.tabs[d] && t < NFRAMES && t != d && m2.tabs == TabledTabs(m1.tabs, d, v / NENTRIES, t)
    requires |g.free| == |g1.free| + 1 && g2.free == g1.free
    ensures Spent(m, g, m2, g2, d, v)
  {
    TablesRow(m.tabs, m1.tabs, d);
    TablesAdded(m1.tabs, d, v / NENTRIES, t);
  }

  lemma SpentMost(m: M, g: G, m': M, g': G, d: nat, v: nat)
    requires Spent(m, g, m', g', d, v) && v < VPAGES
    ensures |g'.free| == |g.free| - (if HasTable(m.tabs, d, v / NENTRIES) then 0 else 1)
  {
    var s, i := TablesOf(m.tabs, d), v / NENTRIES;
    if HasTable(m.tabs, d, i) {
      assert i in s;
      assert s + {i} == s;
    } else {
      assert i !in s;
    }
  }

  /** walkpgdir: the page table that covers v, made if alloc; no page any process sees changes. */
  method WalkPgDir(k: Machine, d: nat, v: nat, alloc: bool) returns (found: bool)
    requires k.Valid() && d < NFRAMES && k.g.own[d].Dir? && v < VPAGES
    modifies k
    ensures Still(old(k.m), old(k.g), k.m, k.g) && NoneTaken(old(k.g), k.g)
    ensures found ==> HasTable(k.m.tabs, d, v / NENTRIES) && Open(Pde(k.m.tabs, d, v / NENTRIES))
    ensures !found ==> !HasTable(old(k.m).tabs, d, v / NENTRIES) && (alloc ==> k.g.free == [] && Stuck(k.m))
    ensures alloc ==> (!found <==> !HasTable(old(k.m).tabs, d, v / NENTRIES) && old(k.g).free == [] && Stuck(old(k.m)))
    ensures HasTable(old(k.m).tabs, d, v / NENTRIES) || !alloc ==> k.m == old(k.m) && k.g == old(k.g)
    ensures !alloc ==> (found <==> HasTable(old(k.m).tabs, d, v / NENTRIES))
    ensures old(k.g).free != [] && alloc ==> SereneBut(old(k.m), old(k.g), k.m, NFRAMES)
    ensures (old(k.g).free != [] && alloc) || HasTable(old(k.m).tabs, d, v / NENTRIES) ==>
      Spent(old(k.m), old(k.g), k.m, k.g, d, v)
  {
    hide Inv, Still, Handed, FrameAt, TabledTabs, Popped, TabledOk, Pte, Stuck, Spent, LeftOnly, Gives, CalmBut, Open;
    Shapes(k.m, k.g);
    StillRefl(k.m, k.g);
    CalmRefl(k.m, k.g, NFRAMES);
    StillPde(k.m, k.g, k.m, k.g, d, v / NENTRIES);
    if Present(Pde(k.m.tabs, d, v / NENTRIES)) {
      SpentNone(k.m, k.g, d, v);
      return true;
    }
    if !alloc { return false; }
    ghost var m0, g0 := k.m, k.g;
    if k.g.free != [] {
      PopCalm(k.m, k.g);
    }
    var a := k.KAlloc();
    if a == 0 {
      FreesNone(m0, g0, k.m, k.g);
      return false;
    }
    HandedRow(m0, g0, k.m, k.g, a, d);
    var i := v / NENTRIES;
    var t := FrameAt(a);
    TabledStill(m0, g0, k.m, k.g, d, i, a);
    ghost var m1, g1 := k.m, k.g;
    k.m := k.m.(tabs := TabledTabs(k.m.tabs, d, i, t));
    k.g := k.g.(own := k.g.own[t := Table(d, i)]);
    if g0.free != [] {
      SpentOne(m0, g0, m1, g1, k.m, k.g, d, v, t);
    }
    StillPde(m0, g0, k.m, k.g, d, i);
    return true;
  }

  lemma HandedRow(m: M, g: G, m': M, g': G, a: nat, d: nat)
    requires Handed(m, g, m', g', a) && d < NFRAMES && g.own[d].Dir?
    ensures a >= KERNBASE && FrameAt(a) < NFRAMES && Addr(FrameAt(a)) == a && Shaped(m', g')
    ensures g'.own[FrameAt(a)].Taken?
    ensures m'.tabs[d] == m.tabs[d]
  {
  }

  lemma FreesNone(m: M, g: G, m': M, g': G)
    requires OnlyFrees(m, g, m', g')
    ensures NoneTaken(g, g') && DirRows(m, g, m')
  {
  }

  // mappages.

  datatype MapResult = Done | NoMemory | Remap

  /** Outside the hole user entries only shrink. */
  ghost predicate ShrinksBut(m: M, g: G, m': M, h: Hole) {
    && |g.own| == NFRAMES && TabsShaped(m.tabs) && TabsShaped(m'.tabs) && |m.slots| == NSLOTS
    && forall d, v :: 0 <= d < NFRAMES && g.own[d].Dir? && 0 <= v < UPAGES && !h.Has(d, v) ==>
         Shrinks(Pte(m.tabs, d, v), Pte(m'.tabs, d, v), m.slots)
  }

  /** Page v of d maps frame f, which the caller held; nothing else that anyone sees changed. */
  ghost predicate PageMapped(m: M, g: G, m': M, g': G, d: nat, v: nat, f: nat, perm: nat) {
    && Inv(m', g') && Quiet(m, g, m', g', Hole(d, v, v + 1), if v < UPAGES then f else NFRAMES)
    && SlotsKept(m, g, m', g')
    && d < NFRAMES && v < VPAGES && perm < PGSIZE && g'.own[d] == g.own[d]
    && Pte(m'.tabs, d, v) == MapEntry(f, perm)
    && (v < UPAGES ==> f < NFRAMES && g'.own[f] == Page(d, v) && Seen(m', g', d, v) == Mapped(m.data[f], Perm(perm)))
    && NoneTaken(g, g') && ShrinksBut(m, g, m', Hole(d, v, v + 1))
  }

  lemma StillSlots(m: M, g: G, m': M, g': G)
    requires Still(m, g, m', g')
    ensures SlotsKept(m, g, m', g')
  {
  }

  lemma MapAfterWalk(a: M, ga: G, b: M, gb: G, d: nat, v: nat, f: nat, perm: nat)
    requires Still(a, ga, b, gb) && NoneTaken(ga, gb) && MapReady(b, gb, d, v, f, perm) && ga.own[d].Dir?
    requires v < UPAGES ==> ga.own[f].Taken?
    ensures PageMapped(a, ga, MapM(b, gb, d, v, f, perm), MapG(b, gb, d, v, f, perm), d, v, f, perm)
  {
    hide FreeOk, TabsOk, PagesOk, SlotsOk, ProcsOk, PageKept, PdeKept, Pte, MapEntry, HasTable, SetPte, Seen;
    var c, gc := MapM(b, gb, d, v, f, perm), MapG(b, gb, d, v, f, perm);
    var x := if v < UPAGES then f else NFRAMES;
    var h := Hole(d, v, v + 1);
    StillDir(a, ga, b, gb, d);
    MapKeeps(b, gb, d, v, f, perm);
    StillSlots(a, ga, b, gb);
    QuietAny(a, ga, b, gb, h, NFRAMES, x);
    QuietTrans(a, ga, b, gb, c, gc, h, x, x);
    assert forall s :: 0 <= s < NSLOTS && !b.slots[s].isFree ==> SlotKept(b, gb, c, gc, s);
    assert v < UPAGES ==> OwnerKept(ga, gb, NOWHERE, NFRAMES, f);
    MapShrinks(a, ga, b, gb, d, v, f, perm);
  }

  lemma MapShrinks(a: M, ga: G, b: M, gb: G, d: nat, v: nat, f: nat, perm: nat)
    requires Still(a, ga, b, gb) && MapReady(b, gb, d, v, f, perm)
    ensures ShrinksBut(a, ga, MapM(b, gb, d, v, f, perm), Hole(d, v, v + 1))
  {
    MapTabs(b, gb, d, v, f, perm);
    hide FreeOk, TabsOk, PagesOk, SlotsOk, ProcsOk, PageKept, PdeKept, Pte, MapEntry, HasTable, MapM;
    var c := MapM(b, gb, d, v, f, perm);
    forall d', v' | 0 <= d' < NFRAMES && ga.own[d'].Dir? && 0 <= v' < UPAGES && (d' != d || v' != v)
      ensures Shrinks(Pte(a.tabs, d', v'), Pte(c.tabs, d', v'), a.slots)
    {
      assert OwnerKept(ga, gb, NOWHERE, NFRAMES, d');
      assert Shrinks(Pte(a.tabs, d', v'), Pte(b.tabs, d', v'), a.slots);
    }
  }

  lemma WalkedEntry(m: M, g: G, m': M, g': G, d: nat, v: nat)
    requires Still(m, g, m', g') && |g.own| == NFRAMES && d < NFRAMES && g.own[d].Dir? && v < VPAGES
    requires HasTable(m.tabs, d, v / NENTRIES) ==> m' == m
    ensures Present(Pte(m'.tabs, d, v)) == Present(Pte(m.tabs, d, v))
  {
    if !HasTable(m.tabs, d, v / NENTRIES) {
      if v < UPAGES {
        assert Shrinks(Pte(m.tabs, d, v), Pte(m'.tabs, d, v), m.slots);
      } else {
        assert PageKept(m, g, m', g', d, v);
      }
    }
  }

  /** With a table or a frame for one, mapping needs nothing more and moves nobody's pages. */
  ghost predicate Frugal(m1: M, g1: G, m2: M, g2: G, d: nat, v: nat, r: MapResult) {
    && TabsShaped(m1.tabs) && d < NFRAMES && v < VPAGES
    && (g1.free != [] || HasTable(m1.tabs, d, v / NENTRIES) ==>
          !r.NoMemory? && Spent(m1, g1, m2, g2, d, v) && CalmOff(m1, g1, m2, d, v) && Unmoved(m1, m2))
  }

  lemma FrugalSame(m0: M, m1: M, g1: G, m2: M, g2: G, d: nat, v: nat, r: MapResult)
    requires Frugal(m1, g1, m2, g2, d, v, r) && HasTable(m1.tabs, d, v / NENTRIES) && m1.tabs == m0.tabs
    ensures !r.NoMemory? && |g2.free| == |g1.free| && CalmOff(m0, g1, m2, d, v) && TabsShaped(m2.tabs)
    ensures Unmoved(m1, m2)
  {
    hide Pte;
    SpentMost(m1, g1, m2, g2, d, v);
    CalmSameTabs(m0, m1, g1, m2, d, v);
  }

  /** One turn of mappages: page v of d gets frame f; Remap is the panic. */
  method MapPage(k: Machine, d: nat, v: nat, f: nat, perm: nat) returns (r: MapResult)
    requires k.Valid() && d < NFRAMES && k.g.own[d].Dir? && v < VPAGES && perm < PGSIZE
    requires v < UPAGES ==> f < NFRAMES && k.g.own[f].Taken?
    modifies k
    ensures r.Done? ==> PageMapped(old(k.m), old(k.g), k.m, k.g, d, v, f, perm)
    ensures !r.Done? ==> Still(old(k.m), old(k.g), k.m, k.g) && NoneTaken(old(k.g), k.g)
    ensures r.Remap? <==> Present(Pte(old(k.m).tabs, d, v))
    ensures r.NoMemory? ==> k.g.free == [] && Stuck(k.m)
    ensures r.NoMemory? <==> !HasTable(old(k.m).tabs, d, v / NENTRIES) && old(k.g).free == [] && Stuck(old(k.m))
    ensures HasTable(old(k.m).tabs, d, v / NENTRIES) ==> DirRows(old(k.m), old(k.g), k.m)
    ensures Frugal(old(k.m), old(k.g), k.m, k.g, d, v, r)
  {
    hide Inv, Still, PageMapped, Pte, CalmBut, CalmOff, MapEntry, Stuck, Spent;
    Shapes(k.m, k.g);
    ghost var m0, g0 := k.m, k.g;
    CalmRefl(m0, g0, NFRAMES);
    var found := WalkPgDir(k, d, v, true);
    StillShaped(m0, g0, k.m, k.g);
    StillDir(m0, g0, k.m, k.g, d);
    if Calm(m0, g0, k.m) {
      CalmWeak(m0, g0, k.m, d, v);
    }
    WalkedEntry(m0, g0, k.m, k.g, d, v);
    if !found {
      AbsentZero(m0.tabs, d, v);
      return NoMemory;
    }
    if Present(Pte(k.m.tabs, d, v)) {
      PresentHas(m0.tabs, d, v);
      return Remap;
    }
    if v < UPAGES {
      StillHeld(m0, g0, k.m, k.g, f);
    }
    ghost var m1, g1 := k.m, k.g;
    MapAfterWalk(m0, g0, m1, g1, d, v, f, perm);
    MapCalm(m0, g0, m1, g1, d, v, f, perm);
    MapRow(m1, g1, d, v, f, perm);
    k.m := k.m.(tabs := SetPte(k.m.tabs, d, v, MapEntry(f, perm)));
    k.g := MapG(m1, g1, d, v, f, perm);
    if g0.free != [] || HasTable(m0.tabs, d, v / NENTRIES) {
      SpentSame(m0, g0, m1, g1, k.m, k.g, d, v);
    }
    return Done;
  }

  lemma SpentSame(m0: M, g0: G, m1: M, g1: G, m2: M, g2: G, d: nat, v: nat)
    requires Spent(m0, g0, m1, g1, d, v) && TabsShaped(m2.tabs) && m2.tabs[d] == m1.tabs[d] && g2.free == g1.free
    ensures Spent(m0, g0, m2, g2, d, v)
  {
    TablesRow(m1.tabs, m2.tabs, d);
  }

  lemma PresentHas(tabs: Tables, d: nat, v: nat)
    requires TabsShaped(tabs) && d < NFRAMES && v < VPAGES
    ensures Present(Pte(tabs, d, v)) ==> HasTable(tabs, d, v / NENTRIES)
  {
  }

  lemma MapRow(m: M, g: G, d: nat, v: nat, f: nat, perm: nat)
    requires MapReady(m, g, d, v, f, perm)
    ensures MapM(m, g, d, v, f, perm).tabs[d] == m.tabs[d] && DirRows(m, g, MapM(m, g, d, v, f, perm))
  {
    MapTabs(m, g, d, v, f, perm);
  }

  lemma MapCalm(m0: M, g0: G, m: M, g: G, d: nat, v: nat, f: nat, perm: nat)
    requires MapReady(m, g, d, v, f, perm) && Still(m0, g0, m, g)
    ensures CalmOff(m0, g0, m, d, v) ==> CalmOff(m0, g0, MapM(m, g, d, v, f, perm), d, v)
  {
    MapTabs(m, g, d, v, f, perm);
    hide Inv, Pte, MapEntry, FreeOk, TabsOk, PageKept, PdeKept, MapM, Evicts;
    assert forall x :: 0 <= x < NFRAMES && g0.own[x].Dir? ==> OwnerKept(g0, g, NOWHERE, NFRAMES, x);
  }

  lemma AbsentZero(tabs: Tables, d: nat, v: nat)
    requires TabsShaped(tabs) && d < NFRAMES && v < VPAGES && !HasTable(tabs, d, v / NENTRIES)
    ensures Pte(tabs, d, v) == 0
  {
  }

  lemma StillHeld(m: M, g: G, m': M, g': G, f: nat)
    requires Still(m, g, m', g') && f < NFRAMES && |g.own| == NFRAMES && g.own[f].Taken?
    ensures |g'.own| == NFRAMES == |m.data| == |m'.data| && g'.own[f].Taken? && m'.data[f] == m.data[f]
  {
    assert OwnerKept(g, g', NOWHERE, NFRAMES, f);
  }

  // deallocuvm and freevm.

  /** Pages needed for sz bytes. */
  function Pages(sz: nat): nat { (sz + PGSIZE - 1) / PGSIZE }

  /** They are the pages that hold a byte below sz. */
  lemma PagesHold(sz: nat, v: nat)
    ensures v < Pages(sz) <==> v * PGSIZE < sz
    ensures v < Pages(sz) <==> exists i: nat :: i < sz && i / PGSIZE == v
  {
    if v * PGSIZE < sz {
      assert v * PGSIZE / PGSIZE == v;
    }
  }

  /** From (m, g) to (m', g'), the present pages of d in [lo, hi) and nothing else went to the free list. */
  ghost predicate Dropped(m: M, g: G, m': M, g': G, d: nat, lo: nat, hi: nat) {
    && Shaped(m, g) && Shaped(m', g') && d < NFRAMES && hi <= UPAGES
    && (forall u :: 0 <= u < VPAGES ==>
          Pte(m'.tabs, d, u) == if lo <= u < hi && Present(Pte(m.tabs, d, u)) then 0 else Pte(m.tabs, d, u))
    && (forall f :: 0 <= f < NFRAMES ==>
          if g.own[f].Page? && g.own[f].d == d && lo <= g.own[f].v < hi then g'.own[f].Free? else g'.own[f] == g.own[f])
    && m' == m.(data := m'.data, tabs := m'.tabs, link := m'.link, head := m'.head)
    && g'.sown == g.sown && |g.free| <= |g'.free|
  }

  lemma DroppedNext(m: M, g: G, m': M, g': G, d: nat, lo: nat, v: nat)
    requires Dropped(m, g, m', g', d, lo, v) && lo <= v < UPAGES && Inv(m, g) && Inv(m', g') && g.own[d].Dir?
    ensures Dropped(m, g, GoneM(m', d, v), GoneG(m', g', d, v), d, lo, v + 1)
  {
    hide GoneM, GoneG, FreeOk, TabsOk, PagesOk, SlotsOk, ProcsOk, Quiet, Pte, FrameOf, Present;
    GoneKeeps(m', g', d, v);
    GoneParts(m', g', d, v);
    PageFrame(m, g, d, v);
    assert Pte(m'.tabs, d, v) == Pte(m.tabs, d, v);
    hide Inv;
  }

  lemma GoneParts(m: M, g: G, d: nat, v: nat)
    requires Inv(m, g) && d < NFRAMES && g.own[d].Dir? && v < UPAGES
    ensures var m', g' := GoneM(m, d, v), GoneG(m, g, d, v);
      && m' == m.(data := m'.data, tabs := m'.tabs, link := m'.link, head := m'.head) && g'.sown == g.sown
      && |g.free| <= |g'.free|
      && var e := Pte(m.tabs, d, v);
      if Present(e) then FrameOf(e) < NFRAMES && g'.own == g.own[FrameOf(e) := Free(|g.free|)] else m' == m && g' == g
  {
    if Present(Pte(m.tabs, d, v)) {
      PageApart(m, g, d, v);
    }
    hide FreeOk, TabsOk, PagesOk, SlotsOk, ProcsOk, Pte;
  }

  /** The frame that holds page v of d, if any, is the one its entry names. */
  lemma PageFrame(m: M, g: G, d: nat, v: nat)
    requires Inv(m, g) && d < NFRAMES && g.own[d].Dir? && v < UPAGES
    ensures Present(Pte(m.tabs, d, v)) ==>
      FrameOf(Pte(m.tabs, d, v)) < NFRAMES && g.own[FrameOf(Pte(m.tabs, d, v))] == Page(d, v)
    ensures forall f :: 0 <= f < NFRAMES && g.own[f] == Page(d, v) ==>
      Present(Pte(m.tabs, d, v)) && f == FrameOf(Pte(m.tabs, d, v))
  {
    hide FreeOk, TabsOk, SlotsOk, ProcsOk, Pte, FrameOf;
    assert PageOk(m.tabs, g.own, d, v);
    forall f | 0 <= f < NFRAMES && g.own[f] == Page(d, v)
      ensures Present(Pte(m.tabs, d, v)) && f == FrameOf(Pte(m.tabs, d, v))
    {
      assert PageHeld(m.tabs, g.own, f, d, v);
    }
  }

  lemma DroppedSkip(m: M, g: G, m': M, g': G, d: nat, lo: nat, v: nat, w: nat)
    requires Dropped(m, g, m', g', d, lo, v) && lo <= v <= w <= UPAGES && Inv(m, g) && g.own[d].Dir?
    requires forall u :: v <= u < w ==> !Present(Pte(m'.tabs, d, u))
    ensures Dropped(m, g, m', g', d, lo, w)
  {
    hide FreeOk, TabsOk, SlotsOk, ProcsOk, Pte, FrameOf;
    forall f | 0 <= f < NFRAMES && g.own[f].Page? && g.own[f].d == d ensures !(v <= g.own[f].v < w) {
      assert PageHeld(m.tabs, g.own, f, d, g.own[f].v);
    }
  }

  /** Where deallocuvm's loop stands at page a. */
  ghost predicate Dropping(m0: M, g0: G, m: M, g: G, d: nat, lo: nat, a: nat, hi: nat) {
    && Inv(m0, g0) && Inv(m, g) && d < NFRAMES && g0.own[d].Dir? && g.own[d].Dir? && lo <= a && lo <= hi <= UPAGES
    && Quiet(m0, g0, m, g, Hole(d, lo, hi), NFRAMES) && Dropped(m0, g0, m, g, d, lo, Min(a, hi))
    && TabledShape(m0) && TabledShape(m) && Scan(m, d, a, hi) == Scan(m0, d, lo, hi)
  }

  lemma DropStart(m: M, g: G, d: nat, lo: nat, hi: nat)
    requires Inv(m, g) && d < NFRAMES && g.own[d].Dir? && lo <= hi <= UPAGES
    ensures Dropping(m, g, m, g, d, lo, lo, hi)
  {
    hide FreeOk, TabsOk, PagesOk, SlotsOk, Pte, Seen, Quiet, Scan;
    QuietRefl(m, g, Hole(d, lo, hi));
  }

  lemma DropFacts(m0: M, g0: G, m: M, g: G, d: nat, lo: nat, a: nat, hi: nat)
    requires Dropping(m0, g0, m, g, d, lo, a, hi)
    ensures Inv(m, g) && Shaped(m, g) && g.own[d].Dir? && TabledShape(m0) && TabledShape(m)
    ensures a >= hi ==>
      Quiet(m0, g0, m, g, Hole(d, lo, hi), NFRAMES) && Dropped(m0, g0, m, g, d, lo, hi) && m == Scan(m0, d, lo, hi)
  {
    hide Dropped, Quiet;
    if a >= hi {
      ScanEnd(m, d, a, hi);
    }
  }

  /** A turn of the loop at a page whose table exists. */
  lemma DropStep(m: M, g: G, m': M, g': G, d: nat, lo: nat, v: nat, hi: nat)
    requires Dropping(m, g, m', g', d, lo, v, hi) && v < hi
    ensures Dropping(m, g, GoneM(m', d, v), GoneG(m', g', d, v), d, lo, v + 1, hi)
  {
    hide FreeOk, TabsOk, PagesOk, SlotsOk, ProcsOk, Quiet, Pte;
    DroppedNext(m, g, m', g', d, lo, v);
    GoneKeeps(m', g', d, v);
    var c, gc := GoneM(m', d, v), GoneG(m', g', d, v);
    assert Dropped(m, g, c, gc, d, lo, v + 1);
    assert gc.own[d] == g.own[d];
    hide Dropped, GoneM, GoneG;
    QuietWiden(m', g', c, gc, Hole(d, v, v + 1), Hole(d, lo, hi), NFRAMES);
    QuietTrans(m, g, m', g', c, gc, Hole(d, lo, hi), NFRAMES, NFRAMES);
  }

  /** A turn of the loop at a page without a table: the jump to the next table. */
  lemma DropJump(m: M, g: G, m': M, g': G, d: nat, lo: nat, a: nat, hi: nat)
    requires Dropping(m, g, m', g', d, lo, a, hi) && a < hi && !HasTable(m'.tabs, d, a / NENTRIES)
    ensures a < (a / NENTRIES + 1) * NENTRIES && Dropping(m, g, m', g', d, lo, (a / NENTRIES + 1) * NENTRIES, hi)
  {
    hide FreeOk, TabsOk, PagesOk, SlotsOk, ProcsOk, Quiet, Pte, Dropped, Scan;
    var b := (a / NENTRIES + 1) * NENTRIES;
    Untabled(m'.tabs, d, a, b);
    ScanSkip(m', d, a, b, hi);
    DroppedSkip(m, g, m', g', d, lo, a, Min(b, hi));
  }

  lemma Untabled(tabs: Tables, d: nat, a: nat, b: nat)
    requires TabsShaped(tabs) && d < NFRAMES && a < UPAGES && !HasTable(tabs, d, a / NENTRIES)
    requires b == (a / NENTRIES + 1) * NENTRIES
    ensures a < b <= UPAGES && forall u :: a <= u < b ==> !Present(Pte(tabs, d, u))
  {
    forall u | a <= u < b ensures !Present(Pte(tabs, d, u)) {
      assert u / NENTRIES == a / NENTRIES;
    }
  }

  lemma ScanEnd(m: M, d: nat, a: nat, hi: nat)
    requires TabledShape(m) && d < NFRAMES && hi <= UPAGES && hi <= a
    ensures Scan(m, d, a, hi) == m
  {
  }

  /** The body of deallocuvm's loop at a page whose table exists. */
  method FreeOne(k: Machine, d: nat, v: nat)
    requires k.Valid() && d < NFRAMES && k.g.own[d].Dir? && v < UPAGES && HasTable(k.m.tabs, d, v / NENTRIES)
    modifies k
    ensures k.m == GoneM(old(k.m), d, v) && k.g == GoneG(old(k.m), old(k.g), d, v)
  {
    hide TabsOk, PagesOk, SlotsOk, ProcsOk, ListOk, Addr, FrameAt;
    var e := Pte(k.m.tabs, d, v);
    if Present(e) {
      PageApart(k.m, k.g, d, v);
      NotReserved(k.m, k.g, FrameOf(e));
      var panic := k.KFree(Addr(FrameOf(e)));
      k.m := k.m.(tabs := SetPte(k.m.tabs, d, v, 0));
    }
  }

  /**
   * deallocuvm: jumping over missing page tables, the same machine as visiting every
   * page from newsz to oldsz in turn.
   */
  method DeallocUvm(k: Machine, d: nat, oldsz: nat, newsz: nat) returns (r: nat)
    requires k.Valid() && d < NFRAMES && k.g.own[d].Dir? && oldsz <= KERNBASE
    modifies k
    ensures r == if newsz >= oldsz then oldsz else newsz
    ensures newsz >= oldsz ==> k.m == old(k.m) && k.g == old(k.g)
    ensures newsz < oldsz ==>
      && k.Valid() && Quiet(old(k.m), old(k.g), k.m, k.g, Hole(d, Pages(newsz), Pages(oldsz)), NFRAMES)
      && Dropped(old(k.m), old(k.g), k.m, k.g, d, Pages(newsz), Pages(oldsz))
      && TabledShape(old(k.m)) && k.m == Scan(old(k.m), d, Pages(newsz), Pages(oldsz))
  {
    hide Inv, Quiet, Dropped, Pte, GoneM, GoneG, Scan, Dropping;
    if newsz >= oldsz { return oldsz; }
    ghost var m0, g0 := k.m, k.g;
    ghost var lo, hi := Pages(newsz), Pages(oldsz);
    DropStart(m0, g0, d, lo, hi);
    var a := Pages(newsz);
    while a * PGSIZE < oldsz
      invariant lo <= a && Dropping(m0, g0, k.m, k.g, d, lo, a, hi)
      decreases hi - a
    {
      ghost var m1, g1 := k.m, k.g;
      DropFacts(m0, g0, m1, g1, d, lo, a, hi);
      var found := WalkPgDir(k, d, a, false);
      if !found {
        DropJump(m0, g0, m1, g1, d, lo, a, hi);
        a := (a / NENTRIES + 1) * NENTRIES;
      } else {
        FreeOne(k, d, a);
        DropStep(m0, g0, m1, g1, d, lo, a, hi);
        a := a + 1;
      }
    }
    DropFacts(m0, g0, k.m, k.g, d, lo, a, hi);
    return newsz;
  }

  /** Owners while freevm releases the tables of d in order: those below i are free. */
  ghost predicate Releasing(own: Owners, own': Owners, d: nat, i: nat) {
    && |own| == |own'| == NFRAMES && d < NFRAMES && own'[d].Taken?
    && forall f :: 0 <= f < NFRAMES && f != d ==>
         if own[f].Table? && own[f].d == d then (if own[f].i < i then own'[f].Free? else own'[f].Taken?)
         else own'[f] == own[f]
  }

  /** The machine once wait has marked process z UNUSED; any other z is nobody. */
  ghost function Reaped(m: M, z: int): M {
    if 0 <= z < |m.procs| then m.(procs := m.procs[z := m.procs[z].(state := Unused)]) else m
  }

  lemma ReapedKeeps(m: M, g: G, z: int)
    requires Inv(m, g)
    ensures Inv(Reaped(m, z), g) && Shaped(Reaped(m, z), g)
  {
    hide ListOk, TabsOk, PagesOk, SlotsOk;
    var procs := Reaped(m, z).procs;
    assert forall p :: 0 <= p < |procs| ==> ProcOk(m.procs[p], g.own);
  }

  lemma ReapedDropped(m: M, g: G, m': M, g': G, d: nat, hi: nat, z: int)
    requires Quiet(m, g, m', g', Hole(d, 0, hi), NFRAMES) && Dropped(m, g, m', g', d, 0, hi)
    ensures Quiet(Reaped(m, z), g, Reaped(m', z), g', Hole(d, 0, hi), NFRAMES)
    ensures Dropped(Reaped(m, z), g, Reaped(m', z), g', d, 0, hi)
  {
    hide Pte, Seen;
    var a, b := Reaped(m, z), Reaped(m', z);
    forall x, i | 0 <= x < NFRAMES && g.own[x].Dir? && 0 <= i < NENTRIES && PdeKept(m, g, m', g', x, i)
      ensures PdeKept(a, g, b, g', x, i)
    {
    }
    forall x, v | 0 <= x < NFRAMES && g.own[x].Dir? && 0 <= v < VPAGES && PageKept(m, g, m', g', x, v)
      ensures PageKept(a, g, b, g', x, v)
    {
      if v < UPAGES {
        SeenSame(m, g, a, x, v);
        SeenSame(m', g', b, x, v);
      }
    }
  }

  lemma ReapedFreed(m: M, f: nat, z: int)
    requires |m.data| == |m.tabs| == |m.link| == NFRAMES && f < NFRAMES
    ensures Reaped(Freed(m, f), z) == Freed(Reaped(m, z), f)
  {
  }

  /** One Taken frame of d goes back to the free list. */
  method ReleaseFrame(k: Machine, f: nat, ghost m0: M, ghost g0: G, ghost d: nat, ghost z: int)
    requires Inv(Reaped(k.m, z), k.g) && Shaped(k.m, k.g) && f < NFRAMES && k.g.own[f].Taken?
    requires Quiet(m0, g0, Reaped(k.m, z), k.g, Hole(d, 0, VPAGES), NFRAMES) && |g0.own| == NFRAMES && !g0.own[f].Taken?
    modifies k
    ensures Inv(Reaped(k.m, z), k.g) && Shaped(k.m, k.g) && k.m.procs == old(k.m).procs
    ensures Quiet(m0, g0, Reaped(k.m, z), k.g, Hole(d, 0, VPAGES), NFRAMES)
    ensures k.g.own == old(k.g).own[f := Free(|old(k.g).free|)] && k.m.tabs == old(k.m).tabs[f := k.m.tabs[f]]
    ensures |k.g.free| == |old(k.g).free| + 1
  {
    hide Inv, Quiet, FreeOk, Addr, FrameAt, Reaped;
    ghost var m1, g1 := Reaped(k.m, z), k.g;
    ReapedShape(k.m, k.g, z);
    Shapes(m1, g1);
    ReapedFreed(k.m, f, z);
    FreeKeeps(m1, g1, f);
    NotReserved(m1, g1, f);
    var panic := k.KFree(Addr(f));
    QuietAny(m1, g1, Reaped(k.m, z), k.g, Hole(d, 0, VPAGES), f, f);
    QuietTrans(m0, g0, m1, g1, Reaped(k.m, z), k.g, Hole(d, 0, VPAGES), NFRAMES, f);
  }

  lemma ReapedShape(m: M, g: G, z: int)
    requires Inv(Reaped(m, z), g)
    ensures Shaped(m, g) && FreeOk(m, g) && Reaped(m, z).end == m.end && Reaped(m, z).tabs == m.tabs
  {
  }

  /**
   * freevm: exactly the frames that d owns go to the free list. Only the process z that wait is
   * reaping may still name d; once it is UNUSED the invariant holds again.
   */
  method FreeVm(k: Machine, d: nat, ghost z: int)
    requires k.Valid() && d < NFRAMES && k.g.own[d].Dir?
    requires forall p :: 0 <= p < |k.m.procs| && k.m.procs[p].state == Ready && k.m.procs[p].pgdir == d ==> p == z
    modifies k
    ensures k.m.procs == old(k.m).procs && Inv(Reaped(k.m, z), k.g)
    ensures Quiet(Reaped(old(k.m), z), old(k.g), Reaped(k.m, z), k.g, Hole(d, 0, VPAGES), NFRAMES)
    ensures forall f :: 0 <= f < NFRAMES ==>
      if Mine(old(k.g).own[f], f, d) then k.g.own[f].Free? else k.g.own[f] == old(k.g).own[f]
  {
    hide Inv, Quiet, Dropped, Scan, Deserted, Present, FrameOf, Reaped;
    ghost var m0, g0 := Reaped(k.m, z), k.g;
    Shapes(k.m, k.g);
    ReapedKeeps(k.m, k.g, z);
    ReapedNone(k.m, d, z);
    ghost var x := k.m;
    var sz := DeallocUvm(k, d, KERNBASE, 0);
    DroppedProcs(x, g0, k.m, k.g, d);
    ReapedKeeps(k.m, k.g, z);
    ReapedDropped(x, g0, k.m, k.g, d, UPAGES, z);
    ghost var m1, g1 := Reaped(k.m, z), k.g;
    AllDropped(m0, g0, m1, g1, d);
    Detach(m1, g1, d);
    k.g := k.g.(own := Detached(k.g.own, d));
    QuietWiden(m0, g0, m1, g1, Hole(d, 0, UPAGES), Hole(d, 0, VPAGES), NFRAMES);
    QuietTrans(m0, g0, m1, g1, m1, k.g, Hole(d, 0, VPAGES), NFRAMES, NFRAMES);
    ReapedShape(k.m, k.g, z);
    FreeTables(k, d, m0, g0, m1, g1, z);
    ReleaseFrame(k, d, m0, g0, d, z);
  }

  lemma ReapedNone(m: M, d: nat, z: int)
    requires forall p :: 0 <= p < |m.procs| && m.procs[p].state == Ready && m.procs[p].pgdir == d ==> p == z
    ensures var m' := Reaped(m, z);
      forall p :: 0 <= p < |m'.procs| && m'.procs[p].state == Ready ==> m'.procs[p].pgdir != d
  {
  }

  lemma DroppedProcs(m: M, g: G, m': M, g': G, d: nat)
    requires Dropped(m, g, m', g', d, 0, UPAGES)
    ensures m'.procs == m.procs
  {
  }

  /** freevm's loop over the directory of d. */
  method FreeTables(k: Machine, d: nat, ghost m0: M, ghost g0: G, ghost m1: M, ghost g1: G, ghost z: int)
    requires Inv(Reaped(k.m, z), k.g) && Shaped(k.m, k.g)
    requires Quiet(m0, g0, Reaped(k.m, z), k.g, Hole(d, 0, VPAGES), NFRAMES)
    requires Inv(m1, g1) && d < NFRAMES && g1.own[d].Dir? && k.m.tabs == m1.tabs && k.g.own == Detached(g1.own, d)
    requires |g0.own| == NFRAMES && forall f :: 0 <= f < NFRAMES && g1.own[f].Table? ==> g0.own[f] == g1.own[f]
    requires forall f :: 0 <= f < NFRAMES && g1.own[f].Page? ==> g1.own[f].d != d
    modifies k
    ensures Inv(Reaped(k.m, z), k.g) && Shaped(k.m, k.g) && k.m.procs == old(k.m).procs
    ensures Quiet(m0, g0, Reaped(k.m, z), k.g, Hole(d, 0, VPAGES), NFRAMES)
    ensures k.g.own[d].Taken?
    ensures forall f :: 0 <= f < NFRAMES && f != d ==>
      if g1.own[f].Table? && g1.own[f].d == d then k.g.own[f].Free? else k.g.own[f] == g1.own[f]
  {
    hide Inv, Quiet, Present, FrameOf, Reaped;
    Shapes(m1, g1);
    assert forall f :: 0 <= f < NFRAMES ==> k.g.own[f] == if Mine(g1.own[f], f, d) then Taken else g1.own[f];
    var i := 0;
    while i < NENTRIES
      invariant 0 <= i <= NENTRIES && Inv(Reaped(k.m, z), k.g) && Shaped(k.m, k.g) && k.m.procs == old(k.m).procs
      invariant Quiet(m0, g0, Reaped(k.m, z), k.g, Hole(d, 0, VPAGES), NFRAMES)
      invariant Releasing(g1.own, k.g.own, d, i) && k.m.tabs[d] == m1.tabs[d]
    {
      NextTable(m1, g1, d, i);
      if Present(Pde(k.m.tabs, d, i)) {
        ReleaseFrame(k, FrameOf(Pde(k.m.tabs, d, i)), m0, g0, d, z);
      }
      i := i + 1;
    }
    ReleasedAll(m1, g1, k.g.own, d);
  }

  lemma ReleasedAll(m: M, g: G, own': Owners, d: nat)
    requires Inv(m, g) && Releasing(g.own, own', d, NENTRIES)
    ensures forall f :: 0 <= f < NFRAMES && f != d ==>
      if g.own[f].Table? && g.own[f].d == d then own'[f].Free? else own'[f] == g.own[f]
    ensures own'[d].Taken?
  {
    hide FreeOk, PagesOk, SlotsOk, ProcsOk;
    assert forall f :: 0 <= f < NFRAMES && g.own[f].Table? ==> TableHeld(m.tabs, g.own, f, g.own[f].d, g.own[f].i);
  }

  lemma AllDropped(m: M, g: G, m': M, g': G, d: nat)
    requires Inv(m, g) && Inv(m', g') && d < NFRAMES && g.own[d].Dir? && Dropped(m, g, m', g', d, 0, UPAGES)
    requires forall p :: 0 <= p < |m.procs| && m.procs[p].state == Ready ==> m.procs[p].pgdir != d
    ensures Deserted(m', g', d) && Shaped(m', g') && g'.own[d].Dir?
    ensures forall f :: 0 <= f < NFRAMES && g'.own[f].Page? ==> g'.own[f].d != d
    ensures forall f :: 0 <= f < NFRAMES ==>
      if g.own[f].Page? && g.own[f].d == d then g'.own[f].Free? else g'.own[f] == g.own[f]
  {
    hide FreeOk, TabsOk, SlotsOk, ProcsOk, Pte;
    forall f | 0 <= f < NFRAMES && g.own[f].Page? && g.own[f].d == d ensures g'.own[f].Free? {
      assert PageHeld(m.tabs, g.own, f, d, g.own[f].v);
    }
  }

  lemma NextTable(m: M, g: G, d: nat, i: nat)
    requires Inv(m, g) && d < NFRAMES && g.own[d].Dir? && i < NENTRIES
    ensures Present(Pde(m.tabs, d, i)) ==>
      FrameOf(Pde(m.tabs, d, i)) < NFRAMES && g.own[FrameOf(Pde(m.tabs, d, i))] == Table(d, i)
    ensures forall f :: 0 <= f < NFRAMES && g.own[f] == Table(d, i) ==>
      Present(Pde(m.tabs, d, i)) && f == FrameOf(Pde(m.tabs, d, i))
  {
    hide FreeOk, PagesOk, SlotsOk, ProcsOk;
    assert PdeOk(m.tabs, g.own, d, i);
    forall f | 0 <= f < NFRAMES && g.own[f] == Table(d, i)
      ensures Present(Pde(m.tabs, d, i)) && f == FrameOf(Pde(m.tabs, d, i))
    {
      assert TableHeld(m.tabs, g.own, f, d, i);
    }
  }

  // setupkvm.

  const W := 2                      // PTE_W
  const EXTPAGES := 256             // EXTMEM / PGSIZE
  const DEVPAGE := 0xFE000          // DEVSPACE / PGSIZE

  /** What the kernel half of every directory must hold; data is the first writable kernel page. */
  function KernelEntry(v: nat, data: nat): nat {
    var f := if v < UPAGES then 0 else v - UPAGES;
    if v < UPAGES then 0
    else if f < EXTPAGES then MapEntry(f, W)
    else if f < data then MapEntry(f, 0)
    else if f < NFRAMES then MapEntry(f, W)
    else if v < DEVPAGE then 0
    else MapEntry(v, W)
  }

  /** Entries of d below n are the kernel's, those above are empty. */
  ghost predicate KernelMapped(tabs: Tables, d: nat, data: nat, n: nat) {
    TabsShaped(tabs) && d < NFRAMES && forall v :: UPAGES <= v < VPAGES ==>
         Pte(tabs, d, v) == if v < n then KernelEntry(v, data) else 0
  }

  /**
   * Physical frame f is at page UPAGES + f, not for users, and the kernel may write it unless
   * it holds kernel text; device pages map to themselves.
   */
  lemma KernelGrants(tabs: Tables, d: nat, data: nat, v: nat)
    requires KernelMapped(tabs, d, data, VPAGES) && UPAGES <= v < VPAGES && EXTPAGES < data < NFRAMES
    ensures v < UPAGES + NFRAMES ==>
      var e := Pte(tabs, d, v);
      Present(e) && FrameOf(e) == v - UPAGES && (Writable(e) <==> v - UPAGES < EXTPAGES || v - UPAGES >= data)
    ensures v >= DEVPAGE ==> Present(Pte(tabs, d, v)) && FrameOf(Pte(tabs, d, v)) == v && Writable(Pte(tabs, d, v))
    ensures forall write :: !UserMay(tabs, d, v, write)
  {
    var e := Pte(tabs, d, v);
    MapEntryFacts(v, W);
    MapEntryFacts(v - UPAGES, W);
    MapEntryFacts(v - UPAGES, 0);
    FlagsWritable(e);
    FlagsLow(e);
    hide MapEntry, Perm;
  }

  /** The kernel pages lo..hi-1 of d map frames from f0 on; the other kernel pages of d are as in m. */
  ghost predicate RangeMapped(m: M, m': M, d: nat, lo: nat, hi: nat, f0: nat, perm: nat) {
    && TabsShaped(m.tabs) && TabsShaped(m'.tabs) && d < NFRAMES && perm < PGSIZE
    && forall u :: UPAGES <= u < VPAGES ==>
         Pte(m'.tabs, d, u) == if lo <= u < hi then MapEntry(f0 + u - lo, perm) else Pte(m.tabs, d, u)
  }

  lemma RangeNext(m: M, m1: M, g1: G, m2: M, g2: G, d: nat, lo: nat, v: nat, f0: nat, perm: nat)
    requires UPAGES <= lo <= v < VPAGES && RangeMapped(m, m1, d, lo, v, f0, perm)
    requires |g1.own| == NFRAMES && g1.own[d].Dir? && PageMapped(m1, g1, m2, g2, d, v, f0 + v - lo, perm)
    ensures RangeMapped(m, m2, d, lo, v + 1, f0, perm)
  {
    hide Pte, MapEntry, Inv, SlotsKept, PdeKept;
    forall u | UPAGES <= u < VPAGES && u != v ensures Pte(m2.tabs, d, u) == Pte(m1.tabs, d, u) {
      assert PageKept(m1, g1, m2, g2, d, u);
    }
  }

  /**
   * mappages on a range of kernel pages: on success every page from va to va + size - 1
   * maps its frame; Remap, the panic, means some page was present before.
   */
  method MapPages(k: Machine, d: nat, va: nat, size: nat, pa: nat, perm: nat) returns (r: MapResult)
    requires k.Valid() && d < NFRAMES && k.g.own[d].Dir? && perm < PGSIZE
    requires KERNBASE <= va && 0 < size && va + size <= VPAGES * PGSIZE && pa % PGSIZE == 0
    modifies k
    ensures k.Valid() && k.g.own[d] == old(k.g).own[d] && NoneTaken(old(k.g), k.g)
    ensures Quiet(old(k.m), old(k.g), k.m, k.g, Hole(d, va / PGSIZE, (va + size - 1) / PGSIZE + 1), NFRAMES)
    ensures r.Done? ==> RangeMapped(old(k.m), k.m, d, va / PGSIZE, (va + size - 1) / PGSIZE + 1, pa / PGSIZE, perm)
    ensures r.Remap? ==> exists u :: va / PGSIZE <= u <= (va + size - 1) / PGSIZE && Present(Pte(old(k.m).tabs, d, u))
    ensures Enough(old(k.m), old(k.g), d, Span(va / PGSIZE, (va + size - 1) / PGSIZE)) ==>
      && !r.NoMemory? && SereneBut(old(k.m), old(k.g), k.m, d)
      && (r.Done? ==> Tabled(old(k.m), old(k.g), k.m, k.g, d, Span(va / PGSIZE, (va + size - 1) / PGSIZE)))
  {
    hide Inv, Quiet, Pte, PageMapped, RangeState, Still, NoneTaken, SereneBut, Span, Tabled, Enough, Frugal, HasTable,
         Stuck;
    ghost var m0, g0 := k.m, k.g;
    var a, last := va / PGSIZE, (va + size - 1) / PGSIZE;
    ghost var h := Hole(d, a, last + 1);
    var f := pa / PGSIZE;
    RangeStart(m0, g0, h, f, perm);
    while true
      invariant h.lo <= a <= last && f == pa / PGSIZE + a - h.lo
      invariant RangeState(m0, g0, k.m, k.g, h, a, pa / PGSIZE, perm)
      decreases last - a
    {
      ghost var m1, g1 := k.m, k.g;
      RangeFacts(m0, g0, m1, g1, h, a, pa / PGSIZE, perm);
      r := MapPage(k, d, a, f, perm);
      if !r.Done? {
        RangeFails(m0, g0, m1, g1, k.m, k.g, h, a, pa / PGSIZE, perm, r);
        return;
      }
      RangeStep(m0, g0, m1, g1, k.m, k.g, h, a, pa / PGSIZE, perm);
      if a == last { break; }
      a := a + 1;
      f := f + 1;
    }
    RangeDone(m0, g0, k.m, k.g, h, pa / PGSIZE, perm);
  }

  /** The free list covers the tables of s that d lacks. */
  ghost predicate Enough(m: M, g: G, d: nat, s: set<nat>) {
    TabsShaped(m.tabs) && d < NFRAMES && |g.free| + |TablesOf(m.tabs, d)| >= |TablesOf(m.tabs, d) + s|
  }

  /** The tables of s were added to d, a frame for each that was missing. */
  ghost predicate Tabled(m: M, g: G, m': M, g': G, d: nat, s: set<nat>) {
    && TabsShaped(m.tabs) && TabsShaped(m'.tabs) && d < NFRAMES
    && TablesOf(m'.tabs, d) == TablesOf(m.tabs, d) + s
    && |g'.free| + |TablesOf(m'.tabs, d)| == |g.free| + |TablesOf(m.tabs, d)|
  }

  lemma TabledNext(m0: M, g0: G, m1: M, g1: G, m2: M, g2: G, d: nat, s: set<nat>, v: nat)
    requires Tabled(m0, g0, m1, g1, d, s) && Spent(m1, g1, m2, g2, d, v)
    ensures Tabled(m0, g0, m2, g2, d, s + {v / NENTRIES})
  {
    hide TablesOf;
    var t := TablesOf(m0.tabs, d);
    assert t + s + {v / NENTRIES} == t + (s + {v / NENTRIES});
  }

  /** While the tables of s are not all there, the list that covers them is not empty. */
  lemma EnoughLeft(m0: M, g0: G, m1: M, g1: G, d: nat, s: set<nat>, whole: set<nat>, i: nat)
    requires Enough(m0, g0, d, whole) && Tabled(m0, g0, m1, g1, d, s) && s <= whole && i in whole && i < NENTRIES
    ensures g1.free != [] || HasTable(m1.tabs, d, i)
  {
    var t := TablesOf(m0.tabs, d);
    if !HasTable(m1.tabs, d, i) {
      assert i !in TablesOf(m1.tabs, d);
      hide TablesOf;
      Subset(t + s + {i}, t + whole);
    }
  }

  lemma SpanNext(lo: nat, a: nat, hi: nat)
    requires lo <= a <= hi < VPAGES
    ensures Span(lo, a) == (if a > lo then Span(lo, a - 1) else {}) + {a / NENTRIES} && Span(lo, a) <= Span(lo, hi)
    ensures a / NENTRIES in Span(lo, hi)
  {
  }

  /** The kernel pages of h.d from h.lo up to a are mapped; frames were used only for their tables. */
  ghost predicate RangeState(m0: M, g0: G, m: M, g: G, h: Hole, a: nat, f0: nat, perm: nat) {
    && Inv(m, g) && h.d < NFRAMES && UPAGES <= h.lo < h.hi <= VPAGES && h.lo <= a <= h.hi && |g0.own| == NFRAMES
    && g0.own[h.d].Dir? && g.own[h.d] == g0.own[h.d] && NoneTaken(g0, g) && Quiet(m0, g0, m, g, h, NFRAMES)
    && RangeMapped(m0, m, h.d, h.lo, a, f0, perm)
    && (a > h.lo ==> HasTable(m.tabs, h.d, (a - 1) / NENTRIES))
    && (Enough(m0, g0, h.d, Span(h.lo, h.hi - 1)) ==>
          Tabled(m0, g0, m, g, h.d, if a > h.lo then Span(h.lo, a - 1) else {}) && SereneBut(m0, g0, m, h.d))
  }

  lemma RangeStart(m: M, g: G, h: Hole, f0: nat, perm: nat)
    requires Inv(m, g) && h.d < NFRAMES && g.own[h.d].Dir? && perm < PGSIZE && UPAGES <= h.lo < h.hi <= VPAGES
    ensures RangeState(m, g, m, g, h, h.lo, f0, perm)
  {
    hide FreeOk, TabsOk, PagesOk, SlotsOk, Pte, Seen, MapEntry, TablesOf;
    assert TablesOf(m.tabs, h.d) + {} == TablesOf(m.tabs, h.d);
  }

  lemma RangeFacts(m0: M, g0: G, m: M, g: G, h: Hole, a: nat, f0: nat, perm: nat)
    requires RangeState(m0, g0, m, g, h, a, f0, perm)
    ensures Inv(m, g) && Shaped(m, g) && h.d < NFRAMES && g.own[h.d].Dir? && perm < PGSIZE
  {
  }

  lemma RangeDone(m0: M, g0: G, m: M, g: G, h: Hole, f0: nat, perm: nat)
    requires RangeState(m0, g0, m, g, h, h.hi, f0, perm)
    ensures Inv(m, g) && |g.own| == NFRAMES && g.own[h.d] == g0.own[h.d] && NoneTaken(g0, g)
    ensures Quiet(m0, g0, m, g, h, NFRAMES)
    ensures RangeMapped(m0, m, h.d, h.lo, h.hi, f0, perm)
    ensures Enough(m0, g0, h.d, Span(h.lo, h.hi - 1)) ==>
      Tabled(m0, g0, m, g, h.d, Span(h.lo, h.hi - 1)) && SereneBut(m0, g0, m, h.d)
  {
  }

  lemma RangeCalm(m0: M, g0: G, m1: M, g1: G, m2: M, g2: G, h: Hole, a: nat, f0: nat, perm: nat, r: MapResult)
    requires RangeState(m0, g0, m1, g1, h, a, f0, perm) && a < h.hi && Frugal(m1, g1, m2, g2, h.d, a, r)
    ensures Enough(m0, g0, h.d, Span(h.lo, h.hi - 1)) ==>
      !r.NoMemory? && Tabled(m0, g0, m2, g2, h.d, Span(h.lo, a)) && SereneBut(m0, g0, m2, h.d)
  {
    hide Inv, Quiet, RangeMapped, NoneTaken, CalmBut, CalmOff, Pte, Enough, Tabled, Span, Spent;
    if Enough(m0, g0, h.d, Span(h.lo, h.hi - 1)) {
      SpanNext(h.lo, a, h.hi - 1);
      EnoughLeft(m0, g0, m1, g1, h.d, if a > h.lo then Span(h.lo, a - 1) else {}, Span(h.lo, h.hi - 1), a / NENTRIES);
      TabledNext(m0, g0, m1, g1, m2, g2, h.d, if a > h.lo then Span(h.lo, a - 1) else {}, a);
      QuietDirs(m0, g0, m1, g1, h);
      CalmOffBut(m1, g1, m2, h.d, a);
      SereneTrans(m0, g0, m1, g1, m2, h.d);
    }
  }

  lemma RangeFails(m0: M, g0: G, m1: M, g1: G, m2: M, g2: G, h: Hole, a: nat, f0: nat, perm: nat, r: MapResult)
    requires RangeState(m0, g0, m1, g1, h, a, f0, perm) && a < h.hi && Still(m1, g1, m2, g2) && NoneTaken(g1, g2)
    requires Frugal(m1, g1, m2, g2, h.d, a, r)
    ensures Inv(m2, g2) && Quiet(m0, g0, m2, g2, h, NFRAMES) && NoneTaken(g0, g2) && |g2.own| == NFRAMES
    ensures g2.own[h.d] == g0.own[h.d]
    ensures TabsShaped(m0.tabs) && Pte(m1.tabs, h.d, a) == Pte(m0.tabs, h.d, a)
    ensures Enough(m0, g0, h.d, Span(h.lo, h.hi - 1)) ==> !r.NoMemory? && SereneBut(m0, g0, m2, h.d)
  {
    hide FreeOk, TabsOk, PagesOk, SlotsOk, ProcsOk, PageKept, PdeKept, OwnerKept, Pte, SereneBut, Frugal, Enough,
         Tabled, Span;
    RangeCalm(m0, g0, m1, g1, m2, g2, h, a, f0, perm, r);
    StillDir(m1, g1, m2, g2, h.d);
    QuietAny(m1, g1, m2, g2, h, NFRAMES, NFRAMES);
    QuietTrans(m0, g0, m1, g1, m2, g2, h, NFRAMES, NFRAMES);
  }

  lemma RangeQuiet(m0: M, g0: G, m1: M, g1: G, m2: M, g2: G, h: Hole, a: nat, f: nat, perm: nat)
    requires Quiet(m0, g0, m1, g1, h, NFRAMES) && NoneTaken(g0, g1) && PageMapped(m1, g1, m2, g2, h.d, a, f, perm)
    requires UPAGES <= h.lo <= a < h.hi <= VPAGES
    ensures Inv(m2, g2) && Quiet(m0, g0, m2, g2, h, NFRAMES) && NoneTaken(g0, g2) && g2.own[h.d] == g1.own[h.d]
  {
    hide Inv, Quiet, Seen, Pte, MapEntry;
    QuietWiden(m1, g1, m2, g2, Hole(h.d, a, a + 1), h, NFRAMES);
    QuietTrans(m0, g0, m1, g1, m2, g2, h, NFRAMES, NFRAMES);
  }

  lemma RangeStep(m0: M, g0: G, m1: M, g1: G, m2: M, g2: G, h: Hole, a: nat, f0: nat, perm: nat)
    requires RangeState(m0, g0, m1, g1, h, a, f0, perm) && a < h.hi
    requires PageMapped(m1, g1, m2, g2, h.d, a, f0 + a - h.lo, perm)
    requires Frugal(m1, g1, m2, g2, h.d, a, Done)
    ensures RangeState(m0, g0, m2, g2, h, a + 1, f0, perm)
  {
    hide RangeMapped, Pte, Inv, Quiet, PageMapped, MapEntry, SereneBut, Frugal, Enough, Tabled, Span, HasTable,
         NoneTaken;
    RangeQuiet(m0, g0, m1, g1, m2, g2, h, a, f0 + a - h.lo, perm);
    Shapes(m2, g2);
    RangeFacts(m0, g0, m1, g1, h, a, f0, perm);
    RangeNext(m0, m1, g1, m2, g2, h.d, h.lo, a, f0, perm);
    MappedTable(m1, g1, m2, g2, h.d, a, f0 + a - h.lo, perm);
    RangeCalm(m0, g0, m1, g1, m2, g2, h, a, f0, perm, Done);
  }

  lemma QuietDirs(m: M, g: G, m': M, g': G, h: Hole)
    requires Quiet(m, g, m', g', h, NFRAMES)
    ensures |g.own| == |g'.own| == NFRAMES && forall x :: 0 <= x < NFRAMES && g.own[x].Dir? && x != h.d ==>
      g'.own[x].Dir?
  {
    forall x | 0 <= x < NFRAMES && g.own[x].Dir? && x != h.d ensures g'.own[x].Dir? {
      assert OwnerKept(g, g', h, NFRAMES, x);
    }
  }

  lemma MappedTable(m: M, g: G, m': M, g': G, d: nat, v: nat, f: nat, perm: nat)
    requires PageMapped(m, g, m', g', d, v, f, perm)
    ensures TabsShaped(m'.tabs) && HasTable(m'.tabs, d, v / NENTRIES)
  {
    MapEntryFacts(f, perm);
    PteHas(m'.tabs, d, v);
  }

  /** Row i of kmap: its pages, first frame and flags; row 3 runs to the top of the address space. */
  function RowStart(i: nat, data: nat): nat {
    if i == 0 then UPAGES else if i == 1 then UPAGES + EXTPAGES else if i == 2 then UPAGES + data
    else if i == 3 then DEVPAGE else VPAGES
  }

  function RowEnd(i: nat, data: nat): nat {
    if i == 2 then UPAGES + NFRAMES else RowStart(i + 1, data)
  }

  function RowFrame(i: nat, data: nat): nat {
    if i == 3 then DEVPAGE else if i < 3 && data >= EXTPAGES then RowStart(i, data) - UPAGES else 0
  }

  function RowPerm(i: nat): nat { if i == 1 then 0 else W }

  lemma RowMapped(m: M, m': M, d: nat, data: nat, i: nat)
    requires i < 4 && EXTPAGES < data < NFRAMES && KernelMapped(m.tabs, d, data, RowStart(i, data))
    requires RangeMapped(m, m', d, RowStart(i, data), RowEnd(i, data), RowFrame(i, data), RowPerm(i))
    ensures KernelMapped(m'.tabs, d, data, RowStart(i + 1, data))
  {
    hide Pte, MapEntry;
  }

  /** The page tables of the kernel half: rows 0 to 2 share one, the devices take eight. */
  ghost function KernelTables(): set<nat> { {512} + Span(DEVPAGE, VPAGES - 1) }

  /** The tables of the first i rows. */
  ghost function RowTables(i: nat): set<nat> { if i == 0 then {} else if i < 4 then {512} else KernelTables() }

  lemma NineTables()
    ensures |KernelTables()| == 9
  {
    assert KernelTables() == {512, 1016, 1017, 1018, 1019, 1020, 1021, 1022, 1023};
  }

  lemma RowSpan(i: nat, data: nat)
    requires i < 4 && EXTPAGES < data < NFRAMES
    ensures RowTables(i + 1) == RowTables(i) + Span(RowStart(i, data), RowEnd(i, data) - 1)
    ensures RowTables(i + 1) <= KernelTables()
  {
    if i < 3 {
      assert Span(RowStart(i, data), RowEnd(i, data) - 1) == {512};
    }
  }

  lemma TabledTrans(m0: M, g0: G, m1: M, g1: G, m2: M, g2: G, d: nat, s: set<nat>, s': set<nat>)
    requires Tabled(m0, g0, m1, g1, d, s) && Tabled(m1, g1, m2, g2, d, s')
    ensures Tabled(m0, g0, m2, g2, d, s + s')
  {
    hide TablesOf;
    var t := TablesOf(m0.tabs, d);
    assert t + s + s' == t + (s + s');
  }

  lemma EnoughMore(m0: M, g0: G, m1: M, g1: G, d: nat, s: set<nat>, s': set<nat>, whole: set<nat>)
    requires Enough(m0, g0, d, whole) && Tabled(m0, g0, m1, g1, d, s) && s + s' <= whole
    ensures Enough(m1, g1, d, s')
  {
    hide TablesOf;
    var t := TablesOf(m0.tabs, d);
    Subset(t + s + s', t + whole);
  }

  /** setupkvm's loop over kmap. */
  method MapKernel(k: Machine, d: nat, data: nat) returns (ok: bool)
    requires k.Valid() && d < NFRAMES && k.g.own[d] == Dir(true) && EXTPAGES < data < NFRAMES
    requires KernelMapped(k.m.tabs, d, data, UPAGES)
    modifies k
    ensures k.Valid() && k.g.own[d] == Dir(true) && NoneTaken(old(k.g), k.g)
    ensures Quiet(old(k.m), old(k.g), k.m, k.g, Hole(d, UPAGES, VPAGES), NFRAMES)
    ensures ok ==> KernelMapped(k.m.tabs, d, data, VPAGES)
    ensures Enough(old(k.m), old(k.g), d, KernelTables()) ==>
      ok && Tabled(old(k.m), old(k.g), k.m, k.g, d, KernelTables()) && SereneBut(old(k.m), old(k.g), k.m, d)
  {
    hide Inv, Quiet, KernelMapped, RangeMapped, Pte, NoneTaken, SereneBut, KernelState, Enough, Tabled, Span,
         KernelTables;
    ghost var m0, g0 := k.m, k.g;
    KernelStart(m0, g0, d, data);
    var i := 0;
    while i < 4
      invariant 0 <= i <= 4 && KernelState(m0, g0, k.m, k.g, d, data, i)
    {
      ghost var m1, g1 := k.m, k.g;
      KernelFacts(m0, g0, m1, g1, d, data, i);
      var lo, n := RowStart(i, data), RowEnd(i, data) - RowStart(i, data);
      PageArith(lo, n, RowFrame(i, data));
      var r := MapPages(k, d, lo * PGSIZE, n * PGSIZE, RowFrame(i, data) * PGSIZE, RowPerm(i));
      RowFresh(m1, d, data, i);
      KernelQuiet(m0, g0, m1, g1, k.m, k.g, d, data, i);
      Shapes(k.m, k.g);
      if r.NoMemory? { return false; }
      KernelStep(m0, g0, m1, g1, k.m, k.g, d, data, i);
      i := i + 1;
    }
    KernelFacts(m0, g0, k.m, k.g, d, data, 4);
    return true;
  }

  /** The first i rows of kmap are mapped in d. */
  ghost predicate KernelState(m0: M, g0: G, m: M, g: G, d: nat, data: nat, i: nat) {
    && Inv(m, g) && d < NFRAMES && EXTPAGES < data < NFRAMES && |g0.own| == NFRAMES && g0.own[d] == Dir(true)
    && g.own[d] == Dir(true)
    && NoneTaken(g0, g) && Quiet(m0, g0, m, g, Hole(d, UPAGES, VPAGES), NFRAMES)
    && KernelMapped(m.tabs, d, data, RowStart(i, data))
    && (Enough(m0, g0, d, KernelTables()) ==> Tabled(m0, g0, m, g, d, RowTables(i)) && SereneBut(m0, g0, m, d))
  }

  lemma KernelStart(m: M, g: G, d: nat, data: nat)
    requires Inv(m, g) && d < NFRAMES && g.own[d] == Dir(true) && EXTPAGES < data < NFRAMES
    requires KernelMapped(m.tabs, d, data, UPAGES)
    ensures KernelState(m, g, m, g, d, data, 0)
  {
    hide Quiet, FreeOk, TabsOk, PagesOk, SlotsOk, Pte, TablesOf, KernelTables;
    QuietRefl(m, g, Hole(d, UPAGES, VPAGES));
    assert TablesOf(m.tabs, d) + {} == TablesOf(m.tabs, d);
  }

  lemma KernelFacts(m0: M, g0: G, m: M, g: G, d: nat, data: nat, i: nat)
    requires KernelState(m0, g0, m, g, d, data, i)
    ensures Inv(m, g) && Shaped(m, g) && g.own[d] == Dir(true) && NoneTaken(g0, g)
    ensures Quiet(m0, g0, m, g, Hole(d, UPAGES, VPAGES), NFRAMES) && KernelMapped(m.tabs, d, data, RowStart(i, data))
    ensures Enough(m0, g0, d, KernelTables()) ==>
      && Tabled(m0, g0, m, g, d, RowTables(i)) && SereneBut(m0, g0, m, d)
      && (i < 4 ==> Enough(m, g, d, Span(RowStart(i, data), RowEnd(i, data) - 1)))
  {
    hide Quiet, KernelMapped, NoneTaken, SereneBut, Tabled, Enough, FreeOk, TabsOk, PagesOk, SlotsOk, ProcsOk;
    if i < 4 && Enough(m0, g0, d, KernelTables()) {
      RowSpan(i, data);
      EnoughMore(m0, g0, m, g, d, RowTables(i), Span(RowStart(i, data), RowEnd(i, data) - 1), KernelTables());
    }
  }

  lemma KernelQuiet(m0: M, g0: G, m1: M, g1: G, m2: M, g2: G, d: nat, data: nat, i: nat)
    requires KernelState(m0, g0, m1, g1, d, data, i) && i < 4 && NoneTaken(g1, g2)
    requires Quiet(m1, g1, m2, g2, Hole(d, RowStart(i, data), RowEnd(i, data)), NFRAMES)
    ensures Quiet(m0, g0, m2, g2, Hole(d, UPAGES, VPAGES), NFRAMES) && NoneTaken(g0, g2)
    ensures SereneBut(m0, g0, m1, d) && SereneBut(m1, g1, m2, d) ==> SereneBut(m0, g0, m2, d)
  {
    hide Inv, SereneBut, KernelMapped, OwnerKept, PageKept, PdeKept;
    var h := Hole(d, UPAGES, VPAGES);
    if SereneBut(m0, g0, m1, d) && SereneBut(m1, g1, m2, d) {
      QuietDirs(m0, g0, m1, g1, h);
      SereneTrans(m0, g0, m1, g1, m2, d);
    }
    QuietWiden(m1, g1, m2, g2, Hole(d, RowStart(i, data), RowEnd(i, data)), h, NFRAMES);
    QuietTrans(m0, g0, m1, g1, m2, g2, h, NFRAMES, NFRAMES);
  }

  lemma KernelStep(m0: M, g0: G, m1: M, g1: G, m2: M, g2: G, d: nat, data: nat, i: nat)
    requires KernelState(m0, g0, m1, g1, d, data, i) && i < 4 && Inv(m2, g2) && |g2.own| == NFRAMES
    requires g2.own[d] == Dir(true)
    requires Quiet(m0, g0, m2, g2, Hole(d, UPAGES, VPAGES), NFRAMES) && NoneTaken(g0, g2)
    requires RangeMapped(m1, m2, d, RowStart(i, data), RowEnd(i, data), RowFrame(i, data), RowPerm(i))
    requires Enough(m0, g0, d, KernelTables()) ==>
      Tabled(m1, g1, m2, g2, d, Span(RowStart(i, data), RowEnd(i, data) - 1)) && SereneBut(m1, g1, m2, d)
    requires SereneBut(m0, g0, m1, d) && SereneBut(m1, g1, m2, d) ==> SereneBut(m0, g0, m2, d)
    ensures KernelState(m0, g0, m2, g2, d, data, i + 1)
  {
    hide Inv, SereneBut, Quiet, KernelMapped, RangeMapped, Tabled, Enough, RowTables, KernelTables, Span;
    RowMapped(m1, m2, d, data, i);
    RowSpan(i, data);
    if Enough(m0, g0, d, KernelTables()) {
      TabledTrans(m0, g0, m1, g1, m2, g2, d, RowTables(i), Span(RowStart(i, data), RowEnd(i, data) - 1));
    }
  }

  lemma QuietRefl(m: M, g: G, h: Hole)
    requires Inv(m, g)
    ensures NoneTaken(g, g) && Quiet(m, g, m, g, h, NFRAMES)
  {
    hide FreeOk, TabsOk, PagesOk, SlotsOk, Pte, Seen;
  }

  lemma PageArith(lo: nat, n: nat, f: nat)
    requires n > 0
    ensures lo * PGSIZE / PGSIZE == lo && (lo * PGSIZE + n * PGSIZE - 1) / PGSIZE + 1 == lo + n
    ensures f * PGSIZE / PGSIZE == f && f * PGSIZE % PGSIZE == 0
  {
  }

  lemma NoneTakenTrans(a: G, b: G, c: G)
    requires NoneTaken(a, b) && NoneTaken(b, c)
    ensures NoneTaken(a, c)
  {
  }

  lemma RowFresh(m: M, d: nat, data: nat, i: nat)
    requires i < 4 && EXTPAGES < data < NFRAMES && KernelMapped(m.tabs, d, data, RowStart(i, data))
    ensures forall u :: RowStart(i, data) <= u < RowEnd(i, data) ==> !Present(Pte(m.tabs, d, u))
  {
    hide Pte, KernelEntry;
  }

  /** d is a new live directory; besides its own pages nothing changed. */
  ghost predicate NewDir(m: M, g: G, m': M, g': G, d: nat) {
    && Inv(m', g') && d < NFRAMES && |g.own| == NFRAMES && !g.own[d].Dir? && !g.own[d].Taken? && g'.own[d] == Dir(true)
    && Quiet(m, g, m', g', Hole(d, 0, VPAGES), NFRAMES)
  }

  lemma NobodyOn(m: M, g: G, m': M, g': G, d: nat)
    requires Inv(m, g) && Quiet(m, g, m', g', Hole(d, 0, VPAGES), NFRAMES) && d < NFRAMES && !g.own[d].Dir?
    ensures forall p :: 0 <= p < |m'.procs| && m'.procs[p].state == Ready ==> m'.procs[p].pgdir != d
  {
    hide FreeOk, TabsOk, PagesOk, SlotsOk, PageKept, PdeKept, OwnerKept;
    forall p | 0 <= p < |m'.procs| && m'.procs[p].state == Ready ensures m'.procs[p].pgdir != d {
      assert ProcOk(m.procs[p], g.own);
    }
  }

  /** A directory made and destroyed again leaves no trace. */
  lemma HoleClosed(m: M, g: G, m': M, g': G, d: nat)
    requires Inv(m, g) && Inv(m', g') && d < NFRAMES && !g.own[d].Dir? && !g'.own[d].Dir?
    requires Quiet(m, g, m', g', Hole(d, 0, VPAGES), NFRAMES)
    ensures Quiet(m, g, m', g', NOWHERE, NFRAMES)
  {
    hide FreeOk, SlotsOk, ProcsOk, PageKept, PdeKept, Pte;
    forall f | 0 <= f < NFRAMES ensures OwnerKept(g, g', NOWHERE, NFRAMES, f) {
      assert OwnerKept(g, g', Hole(d, 0, VPAGES), NFRAMES, f);
      assert g.own[f].Table? ==> TableHeld(m.tabs, g.own, f, g.own[f].d, g.own[f].i);
    }
  }

  lemma UnmappedZero(m: M, g: G, d: nat, v: nat)
    requires Inv(m, g) && d < NFRAMES && g.own[d] == Dir(true) && v < UPAGES
    ensures Seen(m, g, d, v) == Unmapped <==> Pte(m.tabs, d, v) == 0
  {
    assert PageOk(m.tabs, g.own, d, v);
    EntrySlot(m, g, d, v);
  }

  lemma DirStart(m0: M, g0: G, m1: M, g1: G, m2: M, g2: G, a: nat, data: nat)
    requires Still(m0, g0, m1, g1) && Handed(m0, g0, m1, g1, a) && !g0.own[FrameAt(a)].Dir?
    requires m2 == m1.(tabs := m1.tabs[FrameAt(a) := Filled(0, NENTRIES)])
    requires g2 == g1.(own := g1.own[FrameAt(a) := Dir(true)])
    ensures NewDir(m0, g0, m2, g2, FrameAt(a)) && NoneTaken(g0, g2) && KernelMapped(m2.tabs, FrameAt(a), data, UPAGES)
    ensures Shaped(m2, g2)
    ensures forall v :: 0 <= v < UPAGES ==> Seen(m2, g2, FrameAt(a), v) == Unmapped
  {
    hide FrameAt, Addr, FreeOk, TabsOk, PagesOk, SlotsOk, ProcsOk, PageKept, PdeKept, Pte, OwnerKept;
    var t := FrameAt(a);
    DirEntries(m1, g1, t);
    DirMade(m1, g1, m2, g2, t);
    QuietAny(m0, g0, m1, g1, Hole(t, 0, VPAGES), NFRAMES, NFRAMES);
    QuietTrans(m0, g0, m1, g1, m2, g2, Hole(t, 0, VPAGES), NFRAMES, t);
  }

  lemma FreshFrame(m: M, g: G, m': M, g': G, a: nat)
    requires Still(m, g, m', g') && Handed(m, g, m', g', a)
    ensures a >= KERNBASE && FrameAt(a) < NFRAMES && Addr(FrameAt(a)) == a
    ensures |g.own| == |g'.own| == NFRAMES == |m'.data| == |m'.tabs|
    ensures !g.own[FrameAt(a)].Dir? && !g.own[FrameAt(a)].Taken? && g'.own[FrameAt(a)].Taken? && FrameAt(a) != 0
  {
    hide FrameAt, Addr, TabsOk, PagesOk, SlotsOk, ProcsOk, PageKept, PdeKept, ListOk;
    assert OwnerKept(g, g', NOWHERE, NFRAMES, FrameAt(a));
  }

  lemma DirGrown(m0: M, g0: G, m1: M, g1: G, m2: M, g2: G, d: nat)
    requires NewDir(m0, g0, m1, g1, d) && Quiet(m1, g1, m2, g2, Hole(d, UPAGES, VPAGES), NFRAMES) && Inv(m2, g2)
    requires g2.own[d] == Dir(true)
    requires forall v :: 0 <= v < UPAGES ==> Seen(m1, g1, d, v) == Unmapped
    ensures NewDir(m0, g0, m2, g2, d) && forall v :: 0 <= v < UPAGES ==> Seen(m2, g2, d, v) == Unmapped
  {
    QuietWiden(m1, g1, m2, g2, Hole(d, UPAGES, VPAGES), Hole(d, 0, VPAGES), NFRAMES);
    QuietTrans(m0, g0, m1, g1, m2, g2, Hole(d, 0, VPAGES), NFRAMES, NFRAMES);
    hide Seen, Inv, PdeKept, OwnerKept;
    forall v | 0 <= v < UPAGES ensures Seen(m2, g2, d, v) == Unmapped {
      assert PageKept(m1, g1, m2, g2, d, v);
    }
  }

  /** freevm on a directory made since (m0, g0). */
  method Abandon(k: Machine, d: nat, ghost m0: M, ghost g0: G)
    requires Inv(m0, g0) && NewDir(m0, g0, k.m, k.g, d) && NoneTaken(g0, k.g)
    modifies k
    ensures k.Valid() && Quiet(m0, g0, k.m, k.g, NOWHERE, NFRAMES) && NoneTaken(g0, k.g)
  {
    hide Quiet, Inv, Mine;
    ghost var m1, g1 := k.m, k.g;
    NobodyOn(m0, g0, m1, g1, d);
    FreeVm(k, d, -1);
    Shapes(k.m, k.g);
    QuietTrans(m0, g0, m1, g1, k.m, k.g, Hole(d, 0, VPAGES), NFRAMES, NFRAMES);
    assert Mine(g1.own[d], d, d) by {
      MineSelf(g1.own[d], d);
    }
    HoleClosed(m0, g0, k.m, k.g, d);
  }

  lemma MineSelf(o: Owner, d: nat)
    ensures Mine(o, d, d)
  {
  }

  /** The start of setupkvm: a frame filled with zero entries becomes a directory. */
  method MakeDir(k: Machine, ghost data: nat) returns (d: nat)
    requires k.Valid()
    modifies k
    ensures d == 0 <==> old(k.g).free == [] && Stuck(old(k.m))
    ensures d == 0 ==> Still(old(k.m), old(k.g), k.m, k.g) && NoneTaken(old(k.g), k.g)
    ensures d != 0 ==>
      && NewDir(old(k.m), old(k.g), k.m, k.g, d) && NoneTaken(old(k.g), k.g) && KernelMapped(k.m.tabs, d, data, UPAGES)
      && Shaped(k.m, k.g) && k.m.tabs[d] == Filled(0, NENTRIES)
      && forall v :: 0 <= v < UPAGES ==> Seen(k.m, k.g, d, v) == Unmapped
    ensures old(k.g).free != [] ==> |k.g.free| == |old(k.g).free| - 1 && SereneBut(old(k.m), old(k.g), k.m, d)
  {
    hide Inv, Still, Handed, FrameAt, Addr, NewDir, KernelMapped, Seen, NoneTaken, CalmBut, LeftOnly, Gives, Stuck,
         Popped, PoppedG;
    ghost var m0, g0 := k.m, k.g;
    if k.g.free != [] {
      PopCalm(k.m, k.g);
    }
    var a := k.KAlloc();
    GivesLess(m0, g0, if a == 0 then 0 else |k.g.free| + 1);
    if a == 0 {
      FreesNone(m0, g0, k.m, k.g);
      return 0;
    }
    FreshFrame(m0, g0, k.m, k.g, a);
    d := FrameAt(a);
    ghost var m1, g1 := k.m, k.g;
    k.m := k.m.(tabs := k.m.tabs[d := Filled(0, NENTRIES)]);
    k.g := k.g.(own := k.g.own[d := Dir(true)]);
    DirStart(m0, g0, m1, g1, k.m, k.g, a, data);
    if SereneBut(m0, g0, m1, NFRAMES) {
      DirCalm(m0, g0, m1, g1, k.m, d);
    }
  }

  /** setupkvm: a directory with the kernel's mappings and no user page, or 0 and no trace. Ten frames are exactly
      what it needs. */
  method SetupKvm(k: Machine, data: nat) returns (d: nat)
    requires k.Valid() && EXTPAGES < data < NFRAMES
    modifies k
    ensures k.Valid() && NoneTaken(old(k.g), k.g)
    ensures d == 0 ==> Quiet(old(k.m), old(k.g), k.m, k.g, NOWHERE, NFRAMES)
    ensures d != 0 ==>
      && NewDir(old(k.m), old(k.g), k.m, k.g, d) && KernelMapped(k.m.tabs, d, data, VPAGES)
      && Shaped(k.m, k.g) && forall v :: 0 <= v < UPAGES ==> Seen(k.m, k.g, d, v) == Unmapped
    ensures |old(k.g).free| >= 10 ==>
      && d != 0 && |k.g.free| == |old(k.g).free| - 10 && SereneBut(old(k.m), old(k.g), k.m, d)
      && TablesOf(k.m.tabs, d) == KernelTables()
  {
    hide Inv, Quiet, Still, NewDir, KernelMapped, Seen, NoneTaken, SereneBut, Tabled, Enough, KernelTables, TablesOf,
         Stuck;
    ghost var m0, g0 := k.m, k.g;
    d := MakeDir(k, data);
    if d == 0 {
      StillQuiet(m0, g0, k.m, k.g);
      return 0;
    }
    NewDirValid(m0, g0, k.m, k.g, d);
    ghost var m2, g2 := k.m, k.g;
    NoTables(m2, g2, d);
    var ok := MapKernel(k, d, data);
    Shapes(k.m, k.g);
    NewDirDirs(m0, g0, m2, g2, d);
    if SereneBut(m0, g0, m2, d) && SereneBut(m2, g2, k.m, d) {
      SereneTrans(m0, g0, m2, g2, k.m, d);
    }
    DirGrown(m0, g0, m2, g2, k.m, k.g, d);
    NoneTakenTrans(g0, g2, k.g);
    if !ok {
      Abandon(k, d, m0, g0);
      return 0;
    }
  }

  /** A new directory needs nine tables. */
  lemma NoTables(m: M, g: G, d: nat)
    requires TabsShaped(m.tabs) && d < NFRAMES && m.tabs[d] == Filled(0, NENTRIES)
    ensures Enough(m, g, d, KernelTables()) <==> |g.free| >= 9
    ensures forall m': M, g': G :: Tabled(m, g, m', g', d, KernelTables()) ==>
      TablesOf(m'.tabs, d) == KernelTables() && |g'.free| == |g.free| - 9
  {
    NineTables();
    hide KernelTables;
    assert TablesOf(m.tabs, d) == {};
    assert {} + KernelTables() == KernelTables();
  }

  lemma DirCalm(m0: M, g0: G, m1: M, g1: G, m2: M, d: nat)
    requires Still(m0, g0, m1, g1) && SereneBut(m0, g0, m1, NFRAMES) && d < NFRAMES && |g1.own| == NFRAMES
    requires g1.own[d].Taken?
    requires |m1.tabs| == NFRAMES && m2 == m1.(tabs := m1.tabs[d := Filled(0, NENTRIES)])
    ensures SereneBut(m0, g0, m2, d)
  {
    StillShaped(m0, g0, m1, g1);
    DirTabs(m1.tabs, g1.own, d);
    hide Pte, TabsOk, PageKept, PdeKept, Evicts;
    assert forall x :: 0 <= x < NFRAMES && g0.own[x].Dir? ==> OwnerKept(g0, g1, NOWHERE, NFRAMES, x);
  }

  lemma NewDirDirs(m: M, g: G, m': M, g': G, d: nat)
    requires NewDir(m, g, m', g', d)
    ensures |g.own| == |g'.own| == NFRAMES && forall x :: 0 <= x < NFRAMES && g.own[x].Dir? && x != d ==> g'.own[x].Dir?
  {
    QuietDirs(m, g, m', g', Hole(d, 0, VPAGES));
  }

  lemma StillQuiet(m: M, g: G, m': M, g': G)
    requires Still(m, g, m', g')
    ensures Inv(m', g') && Quiet(m, g, m', g', NOWHERE, NFRAMES)
  {
  }

  lemma NewDirValid(m: M, g: G, m': M, g': G, d: nat)
    requires NewDir(m, g, m', g', d)
    ensures Inv(m', g') && d < NFRAMES == |g'.own| && g'.own[d] == Dir(true)
  {
  }

  // Growing a process.

  /** The kernel holds t, which it did not before, and no other new frame. */
  ghost predicate FreshHeld(g: G, g': G, t: nat) {
    && |g.own| == |g'.own| == NFRAMES && t < NFRAMES && g'.own[t].Taken? && !g.own[t].Taken?
    && forall x :: 0 <= x < NFRAMES && g'.own[x].Taken? ==> x == t || g.own[x].Taken?
  }

  /** Every frame but t is as before or free. */
  ghost predicate JustFrees(g: G, g': G, t: nat) {
    |g.own| == |g'.own| == NFRAMES && forall x :: 0 <= x < NFRAMES && x != t ==>
         g'.own[x] == g.own[x] || g'.own[x].Free?
  }

  lemma HandedFresh(m: M, g: G, m': M, g': G, a: nat)
    requires Still(m, g, m', g') && Handed(m, g, m', g', a)
    ensures a >= KERNBASE && FreshHeld(g, g', FrameAt(a)) && Addr(FrameAt(a)) == a && JustFrees(g, g', FrameAt(a))
    ensures DirRows(m, g, m')
    ensures FrameAt(a) < NFRAMES == |m'.data| && m'.data[FrameAt(a)] == Filled(5, PGSIZE)
  {
    hide FrameAt, Addr, Inv, Still;
  }

  /** checkAswap and kalloc once more. It never helps: kalloc fails only on a stuck machine, which stays stuck. */
  method KAllocMore(k: Machine) returns (a: nat)
    requires k.Valid() && k.g.free == [] && Stuck(k.m)
    modifies k
    ensures a == 0 && k.g.free == [] && Stuck(k.m)
    ensures Still(old(k.m), old(k.g), k.m, k.g) && OnlyFrees(old(k.m), old(k.g), k.m, k.g)
    ensures LeftOnly(old(k.m), old(k.g), k.m)
  {
    hide Inv, Still, Handed, FrameAt, OnlyFrees, Stuck, SwapDone, LeftOnly, Gives, FreeOk;
    ghost var m0, g0 := k.m, k.g;
    StillRefl(m0, g0);
    StillShaped(m0, g0, m0, g0);
    k.CheckASwap();
    ghost var m1, g1 := k.m, k.g;
    StillShaped(m0, g0, m1, g1);
    StillDirs(m0, g0, m1, g1);
    SwapLeft(m0, g0, m1, g1);
    SwapStuck(m0, g0, m1, g1);
    a := k.KAlloc();
    LeftTwice(m0, g0, m1, g1, k.m);
    StillTrans(m0, g0, m1, g1, k.m, k.g);
    OnlyFreesTrans(m0, g0, m1, g1, k.m, k.g);
  }

  /** kalloc as its callers use it: copyuvm, swappage_in and allocuvm try up to 0, 1 and 2 times more. */
  method KAllocRetry(k: Machine, retries: nat) returns (a: nat)
    requires k.Valid()
    modifies k
    ensures Still(old(k.m), old(k.g), k.m, k.g) && DirRows(old(k.m), old(k.g), k.m)
    ensures a == 0 <==> old(k.g).free == [] && Stuck(old(k.m))
    ensures a == 0 ==> NoneTaken(old(k.g), k.g) && k.g.free == [] && Stuck(k.m)
    ensures a != 0 ==> a >= KERNBASE && FreshHeld(old(k.g), k.g, FrameAt(a)) && Addr(FrameAt(a)) == a
    ensures a != 0 ==> JustFrees(old(k.g), k.g, FrameAt(a))
    ensures a != 0 ==> FrameAt(a) < |k.m.data| && k.m.data[FrameAt(a)] == Filled(5, PGSIZE)
    ensures old(k.g).free != [] ==> Calm(old(k.m), old(k.g), k.m) && Unmoved(old(k.m), k.m)
    ensures LeftOnly(old(k.m), old(k.g), k.m) && Gives(old(k.m), old(k.g), if a == 0 then 0 else |k.g.free| + 1)
    ensures a != 0 ==> |FreeSlots(k.m.slots)| + |k.g.free| + 1 == |FreeSlots(old(k.m).slots)| + |old(k.g).free|
  {
    hide Inv, Still, Handed, FrameAt, Addr, Calm, NoneTaken, FreshHeld, JustFrees, OnlyFrees, DirRows, Stuck, LeftOnly,
         Gives, FreeOk, Popped, PoppedG, FreeSlots;
    ghost var m0, g0 := k.m, k.g;
    if k.g.free != [] {
      PopCalm(k.m, k.g);
    }
    a := k.KAlloc();
    if a != 0 {
      HandedFresh(m0, g0, k.m, k.g, a);
      return;
    }
    var i := 0;
    StillShaped(m0, g0, k.m, k.g);
    while i < retries && a == 0
      invariant a == 0 && k.Valid() && k.g.free == [] && Stuck(k.m)
      invariant Still(m0, g0, k.m, k.g) && OnlyFrees(m0, g0, k.m, k.g) && LeftOnly(m0, g0, k.m)
    {
      ghost var m1, g1 := k.m, k.g;
      a := KAllocMore(k);
      StillDirs(m0, g0, m1, g1);
      LeftTwice(m0, g0, m1, g1, k.m);
      StillTrans(m0, g0, m1, g1, k.m, k.g);
      OnlyFreesTrans(m0, g0, m1, g1, k.m, k.g);
      StillShaped(m0, g0, k.m, k.g);
      i := i + 1;
    }
    FreesNone(m0, g0, k.m, k.g);
  }

  lemma NoneTakenRefl(g: G)
    requires |g.own| == NFRAMES
    ensures NoneTaken(g, g)
  {
  }

  const WU := 6                     // PTE_W | PTE_U

  function ZeroPage(): (r: seq<nat>)
    ensures |r| == PGSIZE
  {
    Filled(0, PGSIZE)
  }

  /** Pages lo..a-1 of d are zero pages, of a..hi-1 none is newly present, the rest is as in (m0, g0). */
  ghost predicate Growing(m0: M, g0: G, m: M, g: G, d: nat, lo: nat, a: nat, hi: nat) {
    && Inv(m, g) && d < NFRAMES && lo <= a <= hi <= UPAGES && |g0.own| == NFRAMES && g0.own[d] == Dir(true)
    && g.own[d] == Dir(true)
    && Quiet(m0, g0, m, g, Hole(d, lo, hi), NFRAMES)
    && (forall u :: lo <= u < a ==> Seen(m, g, d, u) == Mapped(ZeroPage(), WU))
    && (forall u :: a <= u < hi && Present(Pte(m.tabs, d, u)) ==> Present(Pte(m0.tabs, d, u)))
  }

  lemma GrowingStill(m0: M, g0: G, m1: M, g1: G, m2: M, g2: G, d: nat, lo: nat, a: nat, hi: nat)
    requires Growing(m0, g0, m1, g1, d, lo, a, hi) && Still(m1, g1, m2, g2)
    ensures Growing(m0, g0, m2, g2, d, lo, a, hi)
  {
    hide Inv, Pte, Seen, PdeKept, OwnerKept;
    StillDir(m1, g1, m2, g2, d);
    QuietAny(m1, g1, m2, g2, Hole(d, lo, hi), NFRAMES, NFRAMES);
    QuietTrans(m0, g0, m1, g1, m2, g2, Hole(d, lo, hi), NFRAMES, NFRAMES);
    forall u | lo <= u < a ensures Seen(m2, g2, d, u) == Mapped(ZeroPage(), WU) {
      assert PageKept(m1, g1, m2, g2, d, u);
    }
    forall u | a <= u < hi && Present(Pte(m2.tabs, d, u)) ensures Present(Pte(m0.tabs, d, u)) {
      assert Shrinks(Pte(m1.tabs, d, u), Pte(m2.tabs, d, u), m1.slots);
    }
  }

  /** From a frame t that (m1, g1) does not hold to the page mapped: one turn of allocuvm's loop. */
  lemma GrowingNext(m0: M, g0: G, m1: M, g1: G, m2: M, g2: G, m3: M, m4: M, g4: G, d: nat, lo: nat, a: nat, hi: nat,
          t: nat)
    requires Growing(m0, g0, m1, g1, d, lo, a, hi) && a < hi && Still(m1, g1, m2, g2) && FreshHeld(g1, g2, t)
    requires m3 == m2.(data := m2.data[t := ZeroPage()]) && PageMapped(m3, g2, m4, g4, d, a, t, WU)
    ensures Growing(m0, g0, m4, g4, d, lo, a + 1, hi)
  {
    var h := Hole(d, lo, hi);
    GrowingStill(m0, g0, m1, g1, m2, g2, d, lo, a, hi);
    HeldWritten(m2, g2, t, ZeroPage());
    NotHeld(m0, g0, m1, g1, d, lo, a, hi, t);
    QuietAny(m2, g2, m3, g2, h, t, t);
    QuietTrans(m0, g0, m2, g2, m3, g2, h, NFRAMES, t);
    QuietWiden(m3, g2, m4, g4, Hole(d, a, a + 1), h, t);
    QuietTrans(m0, g0, m3, g2, m4, g4, h, NFRAMES, t);
    GrowingSeen(m2, g2, m3, m4, g4, d, lo, a, hi, t);
  }

  lemma NotHeld(m0: M, g0: G, m1: M, g1: G, d: nat, lo: nat, a: nat, hi: nat, t: nat)
    requires Growing(m0, g0, m1, g1, d, lo, a, hi) && t < NFRAMES && !g1.own[t].Taken?
    ensures !g0.own[t].Taken?
  {
    hide Inv, Pte, Seen, PdeKept, PageKept;
    assert OwnerKept(g0, g1, Hole(d, lo, hi), NFRAMES, t);
  }

  lemma GrowingSeen(m2: M, g2: G, m3: M, m4: M, g4: G, d: nat, lo: nat, a: nat, hi: nat, t: nat)
    requires Inv(m2, g2) && d < NFRAMES && g2.own[d] == Dir(true) && lo <= a < hi <= UPAGES && t < NFRAMES
    requires g2.own[t].Taken?
    requires m3 == m2.(data := m2.data[t := ZeroPage()]) && PageMapped(m3, g2, m4, g4, d, a, t, WU)
    requires forall u :: lo <= u < a ==> Seen(m2, g2, d, u) == Mapped(ZeroPage(), WU)
    ensures forall u :: lo <= u <= a ==> Seen(m4, g4, d, u) == Mapped(ZeroPage(), WU)
    ensures forall u :: a < u < hi && Present(Pte(m4.tabs, d, u)) ==> Present(Pte(m2.tabs, d, u))
  {
    hide Inv, Quiet, Pte, Seen, MapEntry, ZeroPage, ShrinksBut;
    Shapes(m2, g2);
    assert Perm(WU) == WU;
    assert Seen(m4, g4, d, a) == Mapped(ZeroPage(), WU);
    hide PageMapped;
    forall u | 0 <= u < UPAGES && u != a
      ensures Seen(m4, g4, d, u) == Seen(m2, g2, d, u) && (Present(Pte(m4.tabs, d, u)) ==> Present(Pte(m2.tabs, d, u)))
    {
      OtherPage(m2, g2, m3, m4, g4, d, a, t, WU, u);
    }
  }

  /** Filling a held frame and mapping it at page v of d leaves page u alone. */
  lemma OtherPage(m2: M, g2: G, m3: M, m4: M, g4: G, d: nat, v: nat, t: nat, perm: nat, u: nat)
    requires Inv(m2, g2) && d < NFRAMES && g2.own[d] == Dir(true) && v < UPAGES && t < NFRAMES && g2.own[t].Taken?
    requires u < UPAGES && u != v
    requires |m3.data| == NFRAMES && |m3.data[t]| == PGSIZE && m3 == m2.(data := m2.data[t := m3.data[t]])
    requires PageMapped(m3, g2, m4, g4, d, v, t, perm)
    ensures Shaped(m4, g4) && Seen(m4, g4, d, u) == Seen(m2, g2, d, u)
    ensures Present(Pte(m4.tabs, d, u)) ==> Present(Pte(m2.tabs, d, u))
  {
    hide FreeOk, TabsOk, PagesOk, SlotsOk, ProcsOk, Pte, Seen, PdeKept, OwnerKept, MapEntry, Perm, Evicts;
    HeldWritten(m2, g2, t, m3.data[t]);
    assert PageKept(m2, g2, m3, g2, d, u) && PageKept(m3, g2, m4, g4, d, u);
    assert Shrinks(Pte(m3.tabs, d, u), Pte(m4.tabs, d, u), m3.slots);
  }

  ghost predicate NonePresent(m: M, d: nat, lo: nat, hi: nat) {
    TabsShaped(m.tabs) && d < NFRAMES && hi <= UPAGES && forall u :: lo <= u < hi ==> !Present(Pte(m.tabs, d, u))
  }

  /** One free frame for each page from lo to hi - 1 of d and one for each page table they lack. */
  ghost predicate Suffices(m: M, g: G, d: nat, lo: nat, hi: nat) {
    && TabsShaped(m.tabs) && d < NFRAMES
    && |g.free| + |TablesOf(m.tabs, d)| >= hi - lo + |TablesOf(m.tabs, d) + Spanning(lo, hi)|
  }

  lemma TwoEachSuffice(m: M, g: G, d: nat, lo: nat, hi: nat)
    requires TabsShaped(m.tabs) && d < NFRAMES && lo <= hi <= VPAGES && |g.free| >= 2 * (hi - lo)
    ensures Suffices(m, g, d, lo, hi)
  {
    SpanningMost(lo, hi);
    hide Spanning, TablesOf;
    UnionMost(TablesOf(m.tabs, d), Spanning(lo, hi));
  }

  lemma UnionMost(a: set<nat>, b: set<nat>)
    ensures |a + b| <= |a| + |b|
  {
    assert a + b == a + (b - a);
    Subset(b - a, b);
  }

  /**
   * When the frames suffice each one is accounted for: pages not yet reached are present as
   * before and those passed were not.
   */
  ghost predicate Ample(m0: M, g0: G, m: M, g: G, d: nat, lo: nat, a: nat, hi: nat) {
    Suffices(m0, g0, d, lo, hi) ==>
      && NonePresent(m0, d, lo, a) && TabsShaped(m.tabs) && d < NFRAMES && hi <= UPAGES
      && TablesOf(m.tabs, d) == TablesOf(m0.tabs, d) + Spanning(lo, a)
      && |g.free| + |TablesOf(m.tabs, d)| + a - lo == |g0.free| + |TablesOf(m0.tabs, d)|
      && forall u :: a <= u < hi ==> (Present(Pte(m.tabs, d, u)) <==> Present(Pte(m0.tabs, d, u)))
  }

  lemma AmpleNext(m0: M, g0: G, m1: M, g1: G, m2: M, g2: G, m3: M, g3: G, d: nat, lo: nat, a: nat, hi: nat)
    requires Ample(m0, g0, m1, g1, d, lo, a, hi) && lo <= a < hi <= UPAGES && d < NFRAMES
    requires |g1.own| == |g2.own| == NFRAMES && g1.own[d].Dir? && g2.own[d].Dir? && TabsShaped(m1.tabs)
    requires g1.free != [] ==> Calm(m1, g1, m2) && |g2.free| == |g1.free| - 1
    requires TabsShaped(m2.tabs) && !Present(Pte(m2.tabs, d, a)) && m2.tabs[d] == m1.tabs[d]
    requires g2.free != [] || HasTable(m2.tabs, d, a / NENTRIES) ==>
      Spent(m2, g2, m3, g3, d, a) && CalmOff(m2, g2, m3, d, a)
    ensures Ample(m0, g0, m3, g3, d, lo, a + 1, hi)
  {
    AmpleFacts(m0, g0, m1, g1, d, lo, a, hi);
    hide Pte, Present, TablesOf, Spanning, Suffices;
    if Suffices(m0, g0, d, lo, hi) {
      assert HasTable(m2.tabs, d, a / NENTRIES) == HasTable(m1.tabs, d, a / NENTRIES);
      hide HasTable;
      AmpleSpent(m0, g0, m1, g1, m2, g2, m3, g3, d, lo, a, hi);
    }
  }

  lemma AmpleSpent(m0: M, g0: G, m1: M, g1: G, m2: M, g2: G, m3: M, g3: G, d: nat, lo: nat, a: nat, hi: nat)
    requires TabsShaped(m0.tabs) && TabsShaped(m1.tabs) && TabsShaped(m2.tabs) && d < NFRAMES && lo <= a < hi <= UPAGES
    requires TablesOf(m1.tabs, d) == TablesOf(m0.tabs, d) + Spanning(lo, a) && m2.tabs[d] == m1.tabs[d]
    requires |g1.free| + |TablesOf(m1.tabs, d)| + a - lo == |g0.free| + |TablesOf(m0.tabs, d)|
    requires |g2.free| == |g1.free| - 1 && Spent(m2, g2, m3, g3, d, a)
    ensures TablesOf(m3.tabs, d) == TablesOf(m0.tabs, d) + Spanning(lo, a + 1)
    ensures |g3.free| + |TablesOf(m3.tabs, d)| + a + 1 - lo == |g0.free| + |TablesOf(m0.tabs, d)|
  {
    TablesRow(m1.tabs, m2.tabs, d);
    SpanningGrows(lo, a, hi);
    hide TablesOf, Spanning;
    var t, s := TablesOf(m0.tabs, d), Spanning(lo, a);
    assert t + s + {a / NENTRIES} == t + (s + {a / NENTRIES});
  }

  /**
   * allocuvm. Panic is mappages' "remap": it comes only if some page from oldsz to newsz was
   * present, and when there are frames for the pages and the tables they lack it comes exactly
   * then. (With fewer, such a page may be swapped out before it is reached.) Otherwise, on
   * success pages oldsz..newsz are new zero pages; on failure none of them is present. Nothing
   * else that any process sees changes, even if pages are evicted.
   */
  method AllocUvm(k: Machine, d: nat, oldsz: nat, newsz: nat) returns (panic: bool, r: nat)
    requires k.Valid() && d < NFRAMES && k.g.own[d] == Dir(true)
    modifies k
    ensures newsz >= KERNBASE ==> r == 0
    ensures newsz < oldsz && newsz < KERNBASE ==> r == oldsz
    ensures newsz >= KERNBASE || newsz < oldsz ==> !panic && k.m == old(k.m) && k.g == old(k.g)
    ensures panic ==> k.Valid() && oldsz <= newsz < KERNBASE && !NonePresent(old(k.m), d, Pages(oldsz), Pages(newsz))
    ensures oldsz <= newsz < KERNBASE && !panic ==>
      && (r == newsz || r == 0) && Pages(oldsz) <= Pages(newsz)
      && Growing(old(k.m), old(k.g), k.m, k.g, d, Pages(oldsz),
                 if r == newsz then Pages(newsz) else Pages(oldsz), Pages(newsz))
      && (r == newsz ==> ZeroPages(k.m, k.g, d, Pages(oldsz), Pages(newsz)))
      && (r != newsz ==> NonePresent(k.m, d, Pages(oldsz), Pages(newsz))) && NoneTaken(old(k.g), k.g)
    ensures oldsz <= newsz < KERNBASE && Suffices(old(k.m), old(k.g), d, Pages(oldsz), Pages(newsz)) ==>
      (panic <==> !NonePresent(old(k.m), d, Pages(oldsz), Pages(newsz))) && (!panic ==> r == newsz)
  {
    hide Inv, Still, Growing, Pte, FreshHeld, NoneTaken, Addr, FrameAt, PageMapped, Quiet, JustFrees, CalmBut, CalmOff,
         Stuck, NonePresent, Ample, LeftOnly, DirRows, Gives, Suffices, ZeroPages;
    if newsz >= KERNBASE { return false, 0; }
    if newsz < oldsz { return false, oldsz; }
    ghost var m0, g0 := k.m, k.g;
    ghost var lo, hi := Pages(oldsz), Pages(newsz);
    assert lo <= hi <= UPAGES;
    GrowingStart(m0, g0, d, lo, hi);
    Shapes(m0, g0);
    NoneTakenRefl(g0);
    var a := Pages(oldsz);
    while a * PGSIZE < newsz
      invariant lo <= a <= hi && Growing(m0, g0, k.m, k.g, d, lo, a, hi) && NoneTaken(g0, k.g)
      invariant Ample(m0, g0, k.m, k.g, d, lo, a, hi)
      decreases hi - a
    {
      assert a < hi;
      var done := GrowTurn(k, d, oldsz, newsz, a, m0, g0);
      if !done.Done? { return done.Remap?, 0; }
      a := a + 1;
    }
    AmpleEnds(m0, g0, k.m, k.g, d, lo, hi);
    GrownZero(m0, g0, k.m, k.g, d, lo, hi);
    return false, newsz;
  }

  /**
   * A turn of allocuvm's loop; NoMemory is the failure, with everything undone. Remap comes
   * exactly if the page is present, a frame can be had for it and that does not evict it.
   */
  method GrowTurn(k: Machine, d: nat, oldsz: nat, newsz: nat, a: nat, ghost m0: M, ghost g0: G) returns (r: MapResult)
    requires oldsz <= newsz < KERNBASE && Pages(oldsz) <= a < Pages(newsz) <= UPAGES
    requires Growing(m0, g0, k.m, k.g, d, Pages(oldsz), a, Pages(newsz)) && NoneTaken(g0, k.g)
    requires Ample(m0, g0, k.m, k.g, d, Pages(oldsz), a, Pages(newsz))
    modifies k
    ensures r.Done? ==>
      && Growing(m0, g0, k.m, k.g, d, Pages(oldsz), a + 1, Pages(newsz)) && NoneTaken(g0, k.g)
      && Ample(m0, g0, k.m, k.g, d, Pages(oldsz), a + 1, Pages(newsz))
    ensures r.NoMemory? ==>
      && Growing(m0, g0, k.m, k.g, d, Pages(oldsz), Pages(oldsz), Pages(newsz)) && NoneTaken(g0, k.g)
      && NonePresent(k.m, d, Pages(oldsz), Pages(newsz)) && !Suffices(m0, g0, d, Pages(oldsz), Pages(newsz))
    ensures r.Remap? ==> k.Valid() && !NonePresent(m0, d, Pages(oldsz), Pages(newsz))
    ensures r.Remap? <==>
      && Present(Pte(old(k.m).tabs, d, a)) && !Leaving(old(k.m), old(k.g), d, a)
      && !(old(k.g).free == [] && Stuck(old(k.m)))
  {
    hide Inv, Still, Growing, Pte, FreshHeld, NoneTaken, Addr, FrameAt, Quiet, JustFrees, CalmBut, CalmOff, Stuck,
         NonePresent, Ample, LeftOnly, DirRows, Gives, Pages, Suffices, Spent, HasTable, Leaving;
    ghost var lo, hi := Pages(oldsz), Pages(newsz);
    GrowingFacts(m0, g0, k.m, k.g, d, lo, a, hi);
    ghost var m1, g1 := k.m, k.g;
    var p := KAllocRetry(k, 2);
    GivesLess(m1, g1, if p == 0 then 0 else |k.g.free| + 1);
    AmpleFacts(m0, g0, m1, g1, d, lo, a, hi);
    GrowingStill(m0, g0, m1, g1, k.m, k.g, d, lo, a, hi);
    GrowingFacts(m0, g0, k.m, k.g, d, lo, a, hi);
    ghost var m2, g2 := k.m, k.g;
    RowHasTable(m1, g1, m2, d, a / NENTRIES);
    LeftAt(m1, g1, m2, d, a);
    if p == 0 {
      UnGrow(k, d, oldsz, newsz, m0, g0, a);
      NoneTakenTrans(g0, g1, g2);
      NoneTakenTrans(g0, g2, k.g);
      return NoMemory;
    }
    r := GrowPage(k, d, FrameAt(p), m0, g0, m1, g1, lo, a, hi);
    if r.Remap? {
      GrowingWas(m0, g0, m2, g2, d, lo, a, hi);
    } else if r.NoMemory? {
      ghost var g3 := k.g;
      UnGrow(k, d, oldsz, newsz, m0, g0, a);
      FreshKept(g1, g3, k.g, FrameAt(p));
      NotHeld(m0, g0, m1, g1, d, lo, a, hi, FrameAt(p));
      Unhold(k, d, FrameAt(p), m0, g0, m1, g1, lo, hi);
    } else {
      AmpleNext(m0, g0, m1, g1, m2, g2, k.m, k.g, d, lo, a, hi);
      NoneTakenTrans(g0, g1, k.g);
    }
  }

  lemma LeftAt(m: M, g: G, m': M, d: nat, v: nat)
    requires LeftOnly(m, g, m') && d < NFRAMES && g.own[d].Dir? && v < UPAGES
    ensures TabsShaped(m.tabs) && TabsShaped(m'.tabs)
    ensures Present(Pte(m'.tabs, d, v)) <==> Present(Pte(m.tabs, d, v)) && !Leaving(m, g, d, v)
  {
  }

  lemma RowHasTable(m: M, g: G, m': M, d: nat, i: nat)
    requires DirRows(m, g, m') && TabsShaped(m.tabs) && TabsShaped(m'.tabs) && d < NFRAMES && g.own[d].Dir?
    requires i < NENTRIES
    ensures m'.tabs[d] == m.tabs[d] && HasTable(m'.tabs, d, i) == HasTable(m.tabs, d, i)
  {
  }

  lemma AmpleFacts(m0: M, g0: G, m: M, g: G, d: nat, lo: nat, a: nat, hi: nat)
    requires Ample(m0, g0, m, g, d, lo, a, hi) && lo <= a < hi && TabsShaped(m.tabs) && d < NFRAMES
    requires hi <= UPAGES
    ensures Suffices(m0, g0, d, lo, hi) ==>
      |g.free| >= 2 || (|g.free| >= 1 && HasTable(m.tabs, d, a / NENTRIES))
  {
    hide Pte, TablesOf, Spanning, HasTable, Present, NonePresent;
    if Suffices(m0, g0, d, lo, hi) {
      SpanningGrows(lo, a, hi);
      TableLeft(m.tabs, d, a / NENTRIES, TablesOf(m0.tabs, d) + Spanning(lo, hi));
    }
  }

  lemma TableLeft(tabs: Tables, d: nat, i: nat, whole: set<nat>)
    requires TabsShaped(tabs) && d < NFRAMES && i < NENTRIES && TablesOf(tabs, d) + {i} <= whole
    ensures |TablesOf(tabs, d)| + (if HasTable(tabs, d, i) then 0 else 1) <= |whole|
  {
    var s := TablesOf(tabs, d);
    Subset(s + {i}, whole);
    if !HasTable(tabs, d, i) {
      assert i !in s;
    } else {
      assert s + {i} == s;
    }
  }

  /** Pages lo to hi - 1 are all zero and the process may read and write them. */
  ghost predicate ZeroPages(m: M, g: G, d: nat, lo: nat, hi: nat) {
    && Shaped(m, g) && d < NFRAMES && hi <= UPAGES
    && forall u :: lo <= u < hi ==>
         var w := Seen(m, g, d, u);
         && w.Mapped? && User(w.perm) && Writable(w.perm)
         && |w.bytes| == PGSIZE && (forall i :: 0 <= i < PGSIZE ==> w.bytes[i] == 0)
         && (Present(Pte(m.tabs, d, u)) ==> UserMay(m.tabs, d, u, true))
  }

  lemma GrownZero(m0: M, g0: G, m: M, g: G, d: nat, lo: nat, hi: nat)
    requires Growing(m0, g0, m, g, d, lo, hi, hi)
    ensures ZeroPages(m, g, d, lo, hi)
  {
    hide Inv, Pte, Seen, Quiet, UserMay;
    Shapes(m, g);
    forall u | lo <= u < hi ensures Present(Pte(m.tabs, d, u)) ==> UserMay(m.tabs, d, u, true) {
      HardwareGrants(m, g, d, u, true);
    }
  }

  lemma AmpleEnds(m0: M, g0: G, m: M, g: G, d: nat, lo: nat, hi: nat)
    requires Ample(m0, g0, m, g, d, lo, hi, hi)
    ensures Suffices(m0, g0, d, lo, hi) ==> NonePresent(m0, d, lo, hi)
  {
  }

  lemma GivesLess(m: M, g: G, n: nat)
    requires Gives(m, g, n)
    ensures g.free != [] ==> n == |g.free|
  {
  }

  lemma GrowingWas(m0: M, g0: G, m: M, g: G, d: nat, lo: nat, a: nat, hi: nat)
    requires Growing(m0, g0, m, g, d, lo, a, hi) && a < hi && Present(Pte(m.tabs, d, a))
    ensures !NonePresent(m0, d, lo, hi)
  {
    hide Inv, PageKept, PdeKept, OwnerKept, Pte, Seen;
    assert Present(Pte(m0.tabs, d, a)) && lo <= a < hi;
  }

  /** allocuvm's new frame t is cleared and mapped at page a; unless that succeeds the kernel still holds it. */
  method GrowPage(k: Machine, d: nat, t: nat, ghost m0: M, ghost g0: G, ghost m1: M, ghost g1: G, ghost lo: nat,
          a: nat, ghost hi: nat)
    returns (r: MapResult)
    requires Growing(m0, g0, m1, g1, d, lo, a, hi) && Growing(m0, g0, k.m, k.g, d, lo, a, hi) && a < hi
    requires Still(m1, g1, k.m, k.g) && FreshHeld(g1, k.g, t)
    modifies k
    ensures r.Remap? <==> Present(Pte(old(k.m).tabs, d, a))
    ensures r.Done? ==> Growing(m0, g0, k.m, k.g, d, lo, a + 1, hi) && NoneTaken(g1, k.g)
    ensures !r.Done? ==> k.Valid() && Growing(m0, g0, k.m, k.g, d, lo, a, hi) && FreshHeld(g1, k.g, t)
    ensures old(k.g).free != [] || HasTable(old(k.m).tabs, d, a / NENTRIES) ==>
      !r.NoMemory? && Spent(old(k.m), old(k.g), k.m, k.g, d, a) && CalmOff(old(k.m), old(k.g), k.m, d, a)
  {
    hide Inv, Still, Growing, Pte, Quiet, ZeroPage, Stuck, CalmOff, Spent;
    ghost var m2, g2 := k.m, k.g;
    GrowingFacts(m0, g0, k.m, k.g, d, lo, a, hi);
    HeldWritten(k.m, k.g, t, ZeroPage());
    k.m := k.m.(data := k.m.data[t := ZeroPage()]);
    ghost var m3 := k.m;
    r := MapPage(k, d, a, t, WU);
    if r.Done? {
      GrowingNext(m0, g0, m1, g1, m2, g2, m3, k.m, k.g, d, lo, a, hi, t);
    } else {
      NotHeld(m0, g0, m1, g1, d, lo, a, hi, t);
      GrowingWrite(m0, g0, m2, g2, d, lo, a, hi, t);
      GrowingStill(m0, g0, m3, g2, k.m, k.g, d, lo, a, hi);
      StillHeld(m3, g2, k.m, k.g, t);
      StillShaped(m3, g2, k.m, k.g);
    }
    if g2.free != [] || HasTable(m2.tabs, d, a / NENTRIES) {
      SpentTabs(m2, m3, g2, k.m, k.g, d, a);
      CalmSameTabs(m2, m3, g2, k.m, d, a);
    }
  }

  lemma SpentTabs(m: M, m1: M, g: G, m': M, g': G, d: nat, v: nat)
    requires Spent(m1, g, m', g', d, v) && m1.tabs == m.tabs
    ensures Spent(m, g, m', g', d, v)
  {
  }

  lemma CalmSameTabs(m: M, m': M, g: G, m'': M, d: nat, v: nat)
    requires CalmOff(m', g, m'', d, v) && m'.tabs == m.tabs
    ensures CalmOff(m, g, m'', d, v)
  {
    hide Pte;
  }

  lemma FreshKept(g: G, g1: G, g2: G, t: nat)
    requires FreshHeld(g, g1, t) && NoneTaken(g1, g2) && forall x :: 0 <= x < NFRAMES && g1.own[x].Taken? ==>
      g2.own[x].Taken?
    ensures FreshHeld(g, g2, t) && |g.own| == NFRAMES && t < NFRAMES && !g.own[t].Taken?
  {
  }

  lemma GrowingWrite(m0: M, g0: G, m: M, g: G, d: nat, lo: nat, a: nat, hi: nat, t: nat)
    requires Growing(m0, g0, m, g, d, lo, a, hi) && t < NFRAMES && g.own[t].Taken? && !g0.own[t].Taken?
    ensures |m.data| == NFRAMES && Growing(m0, g0, m.(data := m.data[t := ZeroPage()]), g, d, lo, a, hi)
  {
    var m' := m.(data := m.data[t := ZeroPage()]);
    HeldWritten(m, g, t, ZeroPage());
    hide Inv, Pte, Seen, PdeKept, OwnerKept, Evicts;
    QuietAny(m, g, m', g, Hole(d, lo, hi), t, t);
    QuietTrans(m0, g0, m, g, m', g, Hole(d, lo, hi), NFRAMES, t);
    forall u | lo <= u < a ensures Seen(m', g, d, u) == Mapped(ZeroPage(), WU) {
      assert PageKept(m, g, m', g, d, u);
    }
  }

  /** kfree of the frame that could not be mapped. */
  method Unhold(k: Machine, d: nat, t: nat, ghost m0: M, ghost g0: G, ghost m1: M, ghost g1: G, ghost lo: nat,
          ghost hi: nat)
    requires Growing(m0, g0, k.m, k.g, d, lo, lo, hi) && FreshHeld(g1, k.g, t) && NoneTaken(g0, g1) && !g0.own[t].Taken?
    requires NonePresent(k.m, d, lo, hi)
    modifies k
    ensures Growing(m0, g0, k.m, k.g, d, lo, lo, hi) && NoneTaken(g0, k.g) && NonePresent(k.m, d, lo, hi)
  {
    ghost var m2, g2 := k.m, k.g;
    NotReserved(m2, g2, t);
    FreeKeeps(m2, g2, t);
    hide Inv, Pte, Quiet, Addr, FrameAt, Evicts;
    Shapes(m2, g2);
    var panic := k.KFree(Addr(t));
    QuietAny(m2, g2, k.m, k.g, Hole(d, lo, hi), t, t);
    QuietTrans(m0, g0, m2, g2, k.m, k.g, Hole(d, lo, hi), NFRAMES, t);
    EvictsPresent(m2, g2, k.m, k.g, d, lo, hi);
  }

  lemma EvictsPresent(m: M, g: G, m': M, g': G, d: nat, lo: nat, hi: nat)
    requires Evicts(m, g, m', g') && d < NFRAMES && g.own[d].Dir? && hi <= UPAGES
    requires forall u :: lo <= u < hi ==> !Present(Pte(m.tabs, d, u))
    ensures forall u :: lo <= u < hi ==> !Present(Pte(m'.tabs, d, u))
  {
    hide Pte;
    forall u | lo <= u < hi ensures !Present(Pte(m'.tabs, d, u)) {
      assert Shrinks(Pte(m.tabs, d, u), Pte(m'.tabs, d, u), m.slots);
    }
  }

  lemma GrowingStart(m: M, g: G, d: nat, lo: nat, hi: nat)
    requires Inv(m, g) && d < NFRAMES && g.own[d] == Dir(true) && lo <= hi <= UPAGES
    ensures Growing(m, g, m, g, d, lo, lo, hi) && Ample(m, g, m, g, d, lo, lo, hi)
  {
    hide FreeOk, TabsOk, PagesOk, SlotsOk, Pte, Seen;
  }

  lemma GrowingFacts(m0: M, g0: G, m: M, g: G, d: nat, lo: nat, a: nat, hi: nat)
    requires Growing(m0, g0, m, g, d, lo, a, hi)
    ensures Inv(m, g) && Shaped(m, g) && d < NFRAMES && g.own[d] == Dir(true) && hi <= UPAGES && |g0.own| == NFRAMES
  {
  }

  /** deallocuvm after a failed growth. */
  method UnGrow(k: Machine, d: nat, oldsz: nat, newsz: nat, ghost m0: M, ghost g0: G, ghost a: nat)
    requires oldsz <= newsz < KERNBASE && Growing(m0, g0, k.m, k.g, d, Pages(oldsz), a, Pages(newsz))
    modifies k
    ensures Growing(m0, g0, k.m, k.g, d, Pages(oldsz), Pages(oldsz), Pages(newsz))
    ensures NonePresent(k.m, d, Pages(oldsz), Pages(newsz))
    ensures NoneTaken(old(k.g), k.g) && forall x :: 0 <= x < NFRAMES && old(k.g).own[x].Taken? ==> k.g.own[x].Taken?
  {
    hide Inv, Quiet, Dropped, Scan;
    Shapes(k.m, k.g);
    ghost var m1, g1 := k.m, k.g;
    ghost var lo, hi := Pages(oldsz), Pages(newsz);
    var sz := DeallocUvm(k, d, newsz, oldsz);
    if newsz > oldsz {
      QuietTrans(m0, g0, m1, g1, k.m, k.g, Hole(d, lo, hi), NFRAMES, NFRAMES);
      DroppedFacts(m1, g1, k.m, k.g, d, lo, hi);
    }
  }

  lemma DroppedFacts(m: M, g: G, m': M, g': G, d: nat, lo: nat, hi: nat)
    requires Dropped(m, g, m', g', d, lo, hi) && g.own[d].Dir?
    ensures NoneTaken(g, g') && |g'.own| == NFRAMES && g'.own[d] == g.own[d] && TabsShaped(m'.tabs)
    ensures forall x :: 0 <= x < NFRAMES && g.own[x].Taken? ==> g'.own[x].Taken?
    ensures forall u :: lo <= u < hi ==> !Present(Pte(m'.tabs, d, u))
  {
  }
}
