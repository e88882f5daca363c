/** The changes vm.c makes to page tables, and what each of them keeps. */
module VmSteps {
  import opened Paging
  import opened PageSteps

  ghost predicate SlotsKept(m: M, g: G, m': M, g': G) {
    Shaped(m, g) && Shaped(m', g') && forall s :: 0 <= s < NSLOTS && !m.slots[s].isFree ==> SlotKept(m, g, m', g', s)
  }

  // walkpgdir adds a page table.

  const TABLEBITS := 7              // PTE_P | PTE_W | PTE_U

  function TabledTabs(tabs: Tables, d: nat, i: nat, t: nat): (r: Tables)
    requires TabsShaped(tabs) && d < NFRAMES && i < NENTRIES && t < NFRAMES && t != d
    ensures TabsShaped(r)
  {
    var row: seq<nat> := tabs[d][i := t * PGSIZE + TABLEBITS];
    tabs[t := Filled(0, NENTRIES)][d := row]
  }

  lemma TableEntry(t: nat)
    ensures var e := t * PGSIZE + TABLEBITS; Present(e) && Open(e) && FrameOf(e) == t
  {
    Built(t, TABLEBITS);
    FlagsLow(t * PGSIZE + TABLEBITS);
    FlagsWritable(t * PGSIZE + TABLEBITS);
  }

  // The page tables of a directory.

  ghost function TablesOf(tabs: Tables, d: nat): set<nat>
    requires TabsShaped(tabs) && d < NFRAMES
  {
    set i: nat | i < NENTRIES && HasTable(tabs, d, i)
  }

  /** The page tables that cover pages lo to hi. */
  ghost function Span(lo: nat, hi: nat): set<nat> { set i: nat | i < NENTRIES && Covers(lo, hi, i) }

  predicate Covers(lo: nat, hi: nat, i: nat) { lo / NENTRIES <= i <= hi / NENTRIES }

  /** The page tables that cover pages lo to hi - 1. */
  ghost function Spanning(lo: nat, hi: nat): set<nat> { if lo < hi then Span(lo, hi - 1) else {} }

  lemma SpanningGrows(lo: nat, a: nat, hi: nat)
    requires lo <= a < hi <= VPAGES
    ensures Spanning(lo, a + 1) == Spanning(lo, a) + {a / NENTRIES} && Spanning(lo, a + 1) <= Spanning(lo, hi)
  {
  }

  lemma {:induction false} SpanningMost(lo: nat, hi: nat)
    requires lo <= hi <= VPAGES
    ensures |Spanning(lo, hi)| <= hi - lo
    decreases hi - lo
  {
    if lo < hi {
      SpanningMost(lo, hi - 1);
      SpanningGrows(lo, hi - 1, hi);
    }
  }

  lemma TablesAdded(tabs: Tables, d: nat, i: nat, t: nat)
    requires TabsShaped(tabs) && d < NFRAMES && i < NENTRIES && t < NFRAMES && t != d && !HasTable(tabs, d, i)
    ensures TablesOf(TabledTabs(tabs, d, i, t), d) == TablesOf(tabs, d) + {i}
    ensures |TablesOf(TabledTabs(tabs, d, i, t), d)| == |TablesOf(tabs, d)| + 1
  {
    var r := TabledTabs(tabs, d, i, t);
    TableEntry(t);
    hide Present, FrameOf;
    assert TablesOf(r, d) == TablesOf(tabs, d) + {i};
  }

  lemma TablesRow(tabs: Tables, tabs': Tables, d: nat)
    requires TabsShaped(tabs) && TabsShaped(tabs') && d < NFRAMES && tabs'[d] == tabs[d]
    ensures TablesOf(tabs', d) == TablesOf(tabs, d)
  {
  }

  lemma TabledEntry(tabs: Tables, own: Owners, d: nat, i: nat, t: nat, d': nat, v': nat)
    requires TabsShaped(tabs) && |own| == NFRAMES && TabsOk(tabs, own)
    requires d < NFRAMES && own[d].Dir? && i < NENTRIES && !Present(Pde(tabs, d, i)) && t < NFRAMES && own[t].Taken?
    requires d' < NFRAMES && own[d'].Dir? && v' < VPAGES
    ensures Pte(TabledTabs(tabs, d, i, t), d', v') == Pte(tabs, d', v')
  {
    var r := TabledTabs(tabs, d, i, t);
    assert PdeOk(tabs, own, d', v' / NENTRIES);
    TableEntry(t);
    if d' == d && v' / NENTRIES == i {
      assert Pde(r, d, i) == t * PGSIZE + TABLEBITS;
    } else {
      assert Pde(r, d', v' / NENTRIES) == Pde(tabs, d', v' / NENTRIES);
    }
  }

  lemma TabledTabsOk(tabs: Tables, own: Owners, d: nat, i: nat, t: nat)
    requires TabsShaped(tabs) && |own| == NFRAMES && TabsOk(tabs, own)
    requires d < NFRAMES && own[d].Dir? && i < NENTRIES && !Present(Pde(tabs, d, i)) && t < NFRAMES && own[t].Taken?
    ensures var r := TabledTabs(tabs, d, i, t);
      && TabsOk(r, own[t := Table(d, i)]) && HasTable(r, d, i)
      && (forall x, j :: 0 <= x < NFRAMES && own[x].Dir? && 0 <= j < NENTRIES && Present(Pde(tabs, x, j)) ==>
           Pde(r, x, j) == Pde(tabs, x, j))
  {
    var r, own' := TabledTabs(tabs, d, i, t), own[t := Table(d, i)];
    TableEntry(t);
    hide Present, FrameOf, Open;
    forall x, j | 0 <= x < NFRAMES && own'[x].Dir? && 0 <= j < NENTRIES
      ensures PdeOk(r, own', x, j)
      ensures Pde(r, x, j) == if x == d && j == i then t * PGSIZE + TABLEBITS else Pde(tabs, x, j)
    {
      assert PdeOk(tabs, own, x, j);
    }
  }

  /** Frame t became a table of d and no entry changed. */
  ghost predicate TabledOk(m: M, g: G, m': M, g': G, d: nat, i: nat, t: nat) {
    && Shaped(m, g) && Shaped(m', g') && TabsOk(m'.tabs, g'.own) && FreeOk(m', g')
    && m' == m.(tabs := m'.tabs) && t < NFRAMES && g.own[t].Taken? && g' == g.(own := g.own[t := Table(d, i)])
    && (forall d', v' :: 0 <= d' < NFRAMES && g.own[d'].Dir? && 0 <= v' < VPAGES ==>
         Pte(m'.tabs, d', v') == Pte(m.tabs, d', v'))
    && (forall x, j :: 0 <= x < NFRAMES && g.own[x].Dir? && 0 <= j < NENTRIES ==> PdeKept(m, g, m', g', x, j))
  }

  lemma TabledEntries(m: M, g: G, d: nat, i: nat, t: nat)
    requires Inv(m, g) && d < NFRAMES && g.own[d].Dir? && i < NENTRIES && !Present(Pde(m.tabs, d, i)) && t < NFRAMES
    requires g.own[t].Taken?
    ensures var m', g' := m.(tabs := TabledTabs(m.tabs, d, i, t)), g.(own := g.own[t := Table(d, i)]);
      TabledOk(m, g, m', g', d, i, t) && HasTable(m'.tabs, d, i)
  {
    hide ListOk, PagesOk, SlotsOk, ProcsOk;
    var m', g' := m.(tabs := TabledTabs(m.tabs, d, i, t)), g.(own := g.own[t := Table(d, i)]);
    TabledTabsOk(m.tabs, g.own, d, i, t);
    OwnedList(m, g, t, Table(d, i));
    hide TabsOk, TabledTabs, Pte;
    forall d', v' | 0 <= d' < NFRAMES && g.own[d'].Dir? && 0 <= v' < VPAGES
      ensures Pte(m'.tabs, d', v') == Pte(m.tabs, d', v')
    {
      TabledEntry(m.tabs, g.own, d, i, t, d', v');
    }
  }

  lemma TabledInv(m: M, g: G, m': M, g': G, d: nat, i: nat, t: nat)
    requires Inv(m, g) && TabledOk(m, g, m', g', d, i, t)
    ensures Inv(m', g')
  {
    hide ListOk, TabsOk, FreeOk, Pte, SlotOk, FrameOf, Present, PdeKept;
    forall d', v' | 0 <= d' < NFRAMES && g'.own[d'].Dir? && 0 <= v' < UPAGES ensures PageOk(m'.tabs, g'.own, d', v') {
      assert PageOk(m.tabs, g.own, d', v');
    }
    forall x | 0 <= x < NFRAMES && g'.own[x].Page? ensures PageHeld(m'.tabs, g'.own, x, g'.own[x].d, g'.own[x].v) {
      assert PageHeld(m.tabs, g.own, x, g.own[x].d, g.own[x].v);
    }
  }

  lemma TabledKeeps(m: M, g: G, m': M, g': G, d: nat, i: nat, t: nat)
    requires Inv(m, g) && TabledOk(m, g, m', g', d, i, t)
    ensures Inv(m', g') && Quiet(m, g, m', g', NOWHERE, t) && Evicts(m, g, m', g')
  {
    TabledInv(m, g, m', g', d, i, t);
    hide ListOk, TabsOk, FreeOk, Pte, PagesOk, SlotsOk, ProcsOk, PdeKept, Perm;
    forall d', v' | 0 <= d' < NFRAMES && g.own[d'].Dir? && 0 <= v' < UPAGES
      ensures Seen(m', g', d', v') == Seen(m, g, d', v')
    {
    }
    hide Seen;
  }

  lemma OwnedList(m: M, g: G, f: nat, o: Owner)
    requires Shaped(m, g) && FreeOk(m, g) && f < NFRAMES && !g.own[f].Free? && !g.own[f].Reserved? && !o.Free?
    requires !o.Reserved?
    ensures ListOk(m.data, m.link, m.head, g.free, g.own[f := o])
    ensures forall x :: 0 <= x < NFRAMES ==> (g.own[f := o][x].Reserved? <==> g.own[x].Reserved?)
  {
    hide Junk, Addr, Below;
  }

  // One entry of one directory changes.

  ghost predicate EntrySet(m: M, g: G, m': M, g': G, d: nat, v: nat, e: nat) {
    && Shaped(m, g) && Shaped(m', g') && TabsOk(m'.tabs, g'.own) && FreeOk(m', g')
    && d < NFRAMES && g.own[d].Dir? && v < VPAGES
    && (forall x :: 0 <= x < NFRAMES ==> (g'.own[x].Dir? <==> g.own[x].Dir?))
    && (forall x :: 0 <= x < NFRAMES && g.own[x].Dir? ==> m'.tabs[x] == m.tabs[x] && g'.own[x] == g.own[x])
    && (forall x :: 0 <= x < NFRAMES && g.own[x].Table? ==> g'.own[x] == g.own[x])
    && (forall d', v' :: 0 <= d' < NFRAMES && g.own[d'].Dir? && 0 <= v' < VPAGES ==>
          Pte(m'.tabs, d', v') == if d' == d && v' == v then e else Pte(m.tabs, d', v'))
    && m'.slots == m.slots && m'.disk == m.disk && m'.procs == m.procs && m'.end == m.end && Policy(m')
    && g'.sown == g.sown
  }

  lemma EntrySetQuiet(m: M, g: G, m': M, g': G, d: nat, v: nat, e: nat, x: nat)
    requires Inv(m, g) && EntrySet(m, g, m', g', d, v, e)
    requires forall f :: 0 <= f < NFRAMES && f != x && !g.own[f].Page? ==> g'.own[f] == g.own[f]
    requires forall f :: 0 <= f < NFRAMES && f != x && !g.own[f].Page? ==> m'.data[f] == m.data[f]
    requires x < NFRAMES ==> g.own[x].Taken? || g.own[x] == Page(d, v)
    requires forall f, d', v' :: 0 <= f < NFRAMES && g.own[f] == Page(d', v') && (d' != d || v' != v) ==>
      m'.data[f] == m.data[f]
    ensures Quiet(m, g, m', g', Hole(d, v, v + 1), x)
  {
    hide TabsOk, FreeOk, SlotsOk, ProcsOk, SlotPage, Perm;
    forall d', v' | 0 <= d' < NFRAMES && g.own[d'].Dir? && 0 <= v' < UPAGES && (d' != d || v' != v)
      ensures Seen(m', g', d', v') == Seen(m, g, d', v')
    {
      assert PageOk(m.tabs, g.own, d', v');
    }
    hide Seen, Pte, PagesOk;
  }

  // mappages writes one entry.

  ghost predicate MapReady(m: M, g: G, d: nat, v: nat, f: nat, perm: nat) {
    && Inv(m, g) && d < NFRAMES && g.own[d].Dir? && v < VPAGES && perm < PGSIZE
    && HasTable(m.tabs, d, v / NENTRIES) && !Present(Pte(m.tabs, d, v))
    && (v < UPAGES ==> f < NFRAMES && g.own[f].Taken?)
  }

  ghost function MapM(m: M, g: G, d: nat, v: nat, f: nat, perm: nat): M
    requires MapReady(m, g, d, v, f, perm)
  {
    m.(tabs := SetPte(m.tabs, d, v, MapEntry(f, perm)))
  }

  ghost function MapG(m: M, g: G, d: nat, v: nat, f: nat, perm: nat): G
    requires MapReady(m, g, d, v, f, perm)
  {
    if v < UPAGES then g.(own := g.own[f := Page(d, v)]) else g
  }

  lemma MapTabs(m: M, g: G, d: nat, v: nat, f: nat, perm: nat)
    requires MapReady(m, g, d, v, f, perm)
    ensures EntrySet(m, g, MapM(m, g, d, v, f, perm), MapG(m, g, d, v, f, perm), d, v, MapEntry(f, perm))
  {
    hide ListOk, TabsOk, PagesOk, SlotsOk, ProcsOk, MapEntry, Present, FrameOf;
    var m', g' := MapM(m, g, d, v, f, perm), MapG(m, g, d, v, f, perm);
    SetPteTabs(m.tabs, g.own, d, v, MapEntry(f, perm));
    hide Pte, SetPte;
    if v < UPAGES {
      MapOwner(m, g, m'.tabs, f, Page(d, v));
    }
  }

  lemma MapOwner(m: M, g: G, tabs: Tables, f: nat, o: Owner)
    requires Shaped(m, g) && FreeOk(m, g) && TabsShaped(tabs) && TabsOk(tabs, g.own) && f < NFRAMES && g.own[f].Taken?
    requires o.Page?
    ensures var m', g' := m.(tabs := tabs), g.(own := g.own[f := o]);
      Shaped(m', g') && FreeOk(m', g') && TabsOk(tabs, g'.own)
  {
    hide ListOk, TabsOk;
    OwnedList(m, g, f, o);
    LooseTabs(tabs, g.own, tabs, f, o);
  }

  lemma MapPageOk(m: M, g: G, m': M, g': G, d: nat, v: nat, f: nat, perm: nat, d': nat, v': nat)
    requires perm < PGSIZE && EntrySet(m, g, m', g', d, v, MapEntry(f, perm)) && !Present(Pte(m.tabs, d, v))
    requires v < UPAGES ==> f < NFRAMES && g.own[f].Taken?
    requires g'.own == if v < UPAGES then g.own[f := Page(d, v)] else g.own
    requires d' < NFRAMES && g.own[d'].Dir? && v' < UPAGES && PageOk(m.tabs, g.own, d', v')
    ensures PageOk(m'.tabs, g'.own, d', v')
    ensures SlotOk(Pte(m.tabs, d', v'), d', v', m.slots, g.sown) ==>
      SlotOk(Pte(m'.tabs, d', v'), d', v', m'.slots, g'.sown)
  {
    MapEntryFacts(f, perm);
    hide TabsOk, FreeOk, Pte, MapEntry, FrameOf;
  }

  lemma MapHeld(m: M, g: G, m': M, g': G, d: nat, v: nat, f: nat, perm: nat, x: nat)
    requires perm < PGSIZE && EntrySet(m, g, m', g', d, v, MapEntry(f, perm)) && !Present(Pte(m.tabs, d, v))
    requires v < UPAGES ==> f < NFRAMES && g.own[f].Taken?
    requires g'.own == if v < UPAGES then g.own[f := Page(d, v)] else g.own
    requires x < NFRAMES && g'.own[x].Page?
    requires g.own[x].Page? ==> PageHeld(m.tabs, g.own, x, g.own[x].d, g.own[x].v)
    ensures PageHeld(m'.tabs, g'.own, x, g'.own[x].d, g'.own[x].v)
  {
    hide TabsOk, FreeOk, MapEntry, FrameOf, Present;
    MapEntryFacts(f, perm);
    hide Pte;
    if v < UPAGES && x == f {
      assert Pte(m'.tabs, d, v) == MapEntry(f, perm);
    }
  }

  lemma MapInv(m: M, g: G, m': M, g': G, d: nat, v: nat, f: nat, perm: nat)
    requires Inv(m, g) && perm < PGSIZE && EntrySet(m, g, m', g', d, v, MapEntry(f, perm))
    requires !Present(Pte(m.tabs, d, v))
    requires v < UPAGES ==> f < NFRAMES && g.own[f].Taken?
    requires g'.own == if v < UPAGES then g.own[f := Page(d, v)] else g.own
    ensures Inv(m', g')
  {
    hide TabsOk, FreeOk, Pte, MapEntry, FrameOf, PageOk, SlotOk, Present, PageHeld;
    forall d', v' | 0 <= d' < NFRAMES && g.own[d'].Dir? && 0 <= v' < UPAGES
      ensures PageOk(m'.tabs, g'.own, d', v')
      ensures g.own[d'] == Dir(true) ==> SlotOk(Pte(m'.tabs, d', v'), d', v', m'.slots, g'.sown)
    {
      assert PageOk(m.tabs, g.own, d', v');
      MapPageOk(m, g, m', g', d, v, f, perm, d', v');
    }
    forall x | 0 <= x < NFRAMES && g'.own[x].Page? ensures PageHeld(m'.tabs, g'.own, x, g'.own[x].d, g'.own[x].v) {
      assert g.own[x].Page? ==> PageHeld(m.tabs, g.own, x, g.own[x].d, g.own[x].v);
      MapHeld(m, g, m', g', d, v, f, perm, x);
    }
  }

  lemma MapKeeps(m: M, g: G, d: nat, v: nat, f: nat, perm: nat)
    requires MapReady(m, g, d, v, f, perm)
    ensures var m', g' := MapM(m, g, d, v, f, perm), MapG(m, g, d, v, f, perm);
      && Inv(m', g') && Quiet(m, g, m', g', Hole(d, v, v + 1), if v < UPAGES then f else NFRAMES)
      && Pte(m'.tabs, d, v) == MapEntry(f, perm)
      && (v < UPAGES ==> Seen(m', g', d, v) == Mapped(m.data[f], Perm(perm)))
  {
    hide TabsOk, FreeOk, PagesOk, SlotsOk, ProcsOk, Quiet;
    var m', g' := MapM(m, g, d, v, f, perm), MapG(m, g, d, v, f, perm);
    MapTabs(m, g, d, v, f, perm);
    MapInv(m, g, m', g', d, v, f, perm);
    EntrySetQuiet(m, g, m', g', d, v, MapEntry(f, perm), if v < UPAGES then f else NFRAMES);
    MapEntryFacts(f, perm);
    hide Pte, MapEntry, Perm;
  }

  // deallocuvm frees one page and clears its entry.

  /** The page-by-page step: a present page goes to the free list, anything else stays. */
  function GoneM(m: M, d: nat, v: nat): M
    requires TabsShaped(m.tabs) && |m.data| == |m.link| == NFRAMES && d < NFRAMES && v < UPAGES
  {
    var e := Pte(m.tabs, d, v);
    var f := FrameOf(e);
    if Present(e) && f < NFRAMES && f != d && f != FrameOf(Pde(m.tabs, d, v / NENTRIES))
    then var n := Freed(m, f); n.(tabs := SetPte(n.tabs, d, v, 0))
    else m
  }

  ghost function GoneG(m: M, g: G, d: nat, v: nat): G
    requires TabsShaped(m.tabs) && |g.own| == NFRAMES && d < NFRAMES && v < UPAGES
  {
    var e := Pte(m.tabs, d, v);
    if Present(e) && FrameOf(e) < NFRAMES then FreedG(g, FrameOf(e)) else g
  }

  /** A present page's frame is none of the frames that hold tables. */
  lemma PageApart(m: M, g: G, d: nat, v: nat)
    requires Inv(m, g) && d < NFRAMES && g.own[d].Dir? && v < UPAGES && Present(Pte(m.tabs, d, v))
    ensures var f := FrameOf(Pte(m.tabs, d, v));
      && f < NFRAMES && g.own[f] == Page(d, v) && f != d
      && HasTable(m.tabs, d, v / NENTRIES) && f != FrameOf(Pde(m.tabs, d, v / NENTRIES))
  {
    assert PageOk(m.tabs, g.own, d, v) && PdeOk(m.tabs, g.own, d, v / NENTRIES);
  }

  lemma GoneTabs(m: M, g: G, d: nat, v: nat)
    requires Inv(m, g) && d < NFRAMES && g.own[d].Dir? && v < UPAGES && Present(Pte(m.tabs, d, v))
    ensures EntrySet(m, g, GoneM(m, d, v), GoneG(m, g, d, v), d, v, 0)
  {
    hide ListOk, TabsOk, PagesOk, SlotsOk, ProcsOk, Junk, Addr;
    PageApart(m, g, d, v);
    var f := FrameOf(Pte(m.tabs, d, v));
    FreeListGrows(m, g, f);
    var n := Freed(m, f);
    LooseTabs(m.tabs, g.own, n.tabs, f, Free(|g.free|));
    SetPteTabs(n.tabs, FreedG(g, f).own, d, v, 0);
    hide Pte, FrameOf;
  }

  lemma GonePageOk(m: M, g: G, m': M, g': G, d: nat, v: nat, d': nat, v': nat)
    requires EntrySet(m, g, m', g', d, v, 0) && FrameOf(Pte(m.tabs, d, v)) < NFRAMES
    requires g'.own == g.own[FrameOf(Pte(m.tabs, d, v)) := Free(|g.free|)]
    requires g.own[FrameOf(Pte(m.tabs, d, v))] == Page(d, v)
    requires d' < NFRAMES && g.own[d'].Dir? && v' < UPAGES && PageOk(m.tabs, g.own, d', v')
    ensures PageOk(m'.tabs, g'.own, d', v')
    ensures SlotOk(Pte(m.tabs, d', v'), d', v', m.slots, g.sown) ==>
      SlotOk(Pte(m'.tabs, d', v'), d', v', m'.slots, g'.sown)
  {
    hide TabsOk, FreeOk, Pte, FrameOf;
  }

  lemma GoneInv(m: M, g: G, m': M, g': G, d: nat, v: nat)
    requires Inv(m, g) && EntrySet(m, g, m', g', d, v, 0) && FrameOf(Pte(m.tabs, d, v)) < NFRAMES
    requires g'.own == g.own[FrameOf(Pte(m.tabs, d, v)) := Free(|g.free|)]
    requires g.own[FrameOf(Pte(m.tabs, d, v))] == Page(d, v)
    ensures Inv(m', g')
  {
    hide TabsOk, FreeOk, Pte, FrameOf, PageOk, SlotOk, Present;
    forall d', v' | 0 <= d' < NFRAMES && g.own[d'].Dir? && 0 <= v' < UPAGES
      ensures PageOk(m'.tabs, g'.own, d', v')
      ensures g.own[d'] == Dir(true) ==> SlotOk(Pte(m'.tabs, d', v'), d', v', m'.slots, g'.sown)
    {
      assert PageOk(m.tabs, g.own, d', v');
      GonePageOk(m, g, m', g', d, v, d', v');
    }
  }

  lemma GoneKeeps(m: M, g: G, d: nat, v: nat)
    requires Inv(m, g) && d < NFRAMES && g.own[d].Dir? && v < UPAGES
    ensures var m', g' := GoneM(m, d, v), GoneG(m, g, d, v);
      && Inv(m', g') && Quiet(m, g, m', g', Hole(d, v, v + 1), NFRAMES)
      && (forall u :: 0 <= u < VPAGES ==>
            Pte(m'.tabs, d, u) == if u == v && Present(Pte(m.tabs, d, v)) then 0 else Pte(m.tabs, d, u))
  {
    hide TabsOk, FreeOk, PagesOk, SlotsOk, ProcsOk;
    if Present(Pte(m.tabs, d, v)) {
      hide Quiet;
      PageApart(m, g, d, v);
      GoneTabs(m, g, d, v);
      var m', g' := GoneM(m, d, v), GoneG(m, g, d, v);
      GoneInv(m, g, m', g', d, v);
      EntrySetQuiet(m, g, m', g', d, v, 0, NFRAMES);
    }
  }

  lemma QuietWiden(m: M, g: G, m': M, g': G, h: Hole, h': Hole, x: nat)
    requires Quiet(m, g, m', g', h, x) && h.lo < h.hi && h.d == h'.d && h'.lo <= h.lo && h.hi <= h'.hi <= VPAGES
    ensures Quiet(m, g, m', g', h', x)
  {
    hide PageKept, PdeKept;
    forall f | 0 <= f < NFRAMES ensures OwnerKept(g, g', h', x, f) {
      assert OwnerKept(g, g', h, x, f);
    }
  }

  lemma QuietAny(m: M, g: G, m': M, g': G, h: Hole, y: nat, x: nat)
    requires Quiet(m, g, m', g', NOWHERE, y) && (y == x || y == NFRAMES)
    ensures Quiet(m, g, m', g', h, x)
  {
    hide PageKept, PdeKept;
    forall f | 0 <= f < NFRAMES ensures OwnerKept(g, g', h, x, f) {
      assert OwnerKept(g, g', NOWHERE, y, f);
    }
  }

  // The reference for deallocuvm: every page in turn.

  predicate TabledShape(m: M) { TabsShaped(m.tabs) && |m.data| == |m.link| == NFRAMES }

  function Scan(m: M, d: nat, lo: nat, hi: nat): (r: M)
    requires TabledShape(m) && d < NFRAMES && hi <= UPAGES
    ensures TabledShape(r)
    decreases if lo < hi then hi - lo else 0
  {
    if lo < hi then Scan(GoneM(m, d, lo), d, lo + 1, hi) else m
  }

  /** Pages that are not present can be jumped over. */
  lemma {:induction false} ScanSkip(m: M, d: nat, a: nat, b: nat, hi: nat)
    requires TabledShape(m) && d < NFRAMES && hi <= UPAGES && a <= b
    requires forall u :: a <= u < b && u < hi ==> !Present(Pte(m.tabs, d, u))
    ensures Scan(m, d, a, hi) == Scan(m, d, b, hi)
    decreases b - a
  {
    if a < b && a < hi {
      assert GoneM(m, d, a) == m;
      ScanSkip(m, d, a + 1, b, hi);
    }
  }

  // Directories come and go.

  /** Frame t became an empty directory. */
  ghost predicate DirOk(m: M, g: G, m': M, g': G, t: nat) {
    && Shaped(m, g) && Shaped(m', g') && TabsOk(m'.tabs, g'.own) && FreeOk(m', g')
    && m' == m.(tabs := m'.tabs) && t < NFRAMES && g.own[t].Taken? && g' == g.(own := g.own[t := Dir(true)])
    && (forall d, v :: 0 <= d < NFRAMES && g'.own[d].Dir? && 0 <= v < VPAGES ==>
          Pte(m'.tabs, d, v) == if d == t then 0 else Pte(m.tabs, d, v))
    && (forall x, j :: 0 <= x < NFRAMES && g.own[x].Dir? && 0 <= j < NENTRIES ==> PdeKept(m, g, m', g', x, j))
  }

  lemma DirEntries(m: M, g: G, t: nat)
    requires Inv(m, g) && t < NFRAMES && g.own[t].Taken?
    ensures DirOk(m, g, m.(tabs := m.tabs[t := Filled(0, NENTRIES)]), g.(own := g.own[t := Dir(true)]), t)
  {
    hide ListOk, PagesOk, SlotsOk, ProcsOk, TabsOk;
    DirTabs(m.tabs, g.own, t);
    OwnedList(m, g, t, Dir(true));
    hide Pte;
  }

  lemma DirInv(m: M, g: G, m': M, g': G, t: nat)
    requires Inv(m, g) && DirOk(m, g, m', g', t)
    ensures Inv(m', g')
  {
    hide ListOk, TabsOk, FreeOk, Pte, FrameOf, PdeKept;
    forall d', v' | 0 <= d' < NFRAMES && g'.own[d'].Dir? && 0 <= v' < UPAGES
      ensures PageOk(m'.tabs, g'.own, d', v')
      ensures g'.own[d'] == Dir(true) ==> SlotOk(Pte(m'.tabs, d', v'), d', v', m'.slots, g'.sown)
    {
      assert d' != t ==> PageOk(m.tabs, g.own, d', v');
      assert d' != t && g.own[d'] == Dir(true) ==> SlotOk(Pte(m.tabs, d', v'), d', v', m.slots, g.sown);
    }
    hide PageOk, SlotOk;
    forall x | 0 <= x < NFRAMES && g'.own[x].Page? ensures PageHeld(m'.tabs, g'.own, x, g'.own[x].d, g'.own[x].v) {
      assert PageHeld(m.tabs, g.own, x, g.own[x].d, g.own[x].v);
    }
  }

  lemma DirMade(m: M, g: G, m': M, g': G, t: nat)
    requires Inv(m, g) && DirOk(m, g, m', g', t)
    ensures Inv(m', g') && Quiet(m, g, m', g', Hole(t, 0, VPAGES), t)
  {
    DirInv(m, g, m', g', t);
    hide ListOk, TabsOk, FreeOk, Pte, PagesOk, SlotsOk, ProcsOk, PdeKept, Perm, FrameOf;
    forall d', v' | 0 <= d' < NFRAMES && g.own[d'].Dir? && 0 <= v' < UPAGES
      ensures Seen(m', g', d', v') == Seen(m, g, d', v')
    {
    }
    hide Seen;
  }

  lemma DirTabs(tabs: Tables, own: Owners, t: nat)
    requires TabsShaped(tabs) && |own| == NFRAMES && TabsOk(tabs, own) && t < NFRAMES && own[t].Taken?
    ensures var tabs' := tabs[t := Filled(0, NENTRIES)];
      && TabsShaped(tabs') && TabsOk(tabs', own[t := Dir(true)])
      && (forall v :: 0 <= v < VPAGES ==> Pte(tabs', t, v) == 0)
      && (forall d, i :: 0 <= d < NFRAMES && own[d].Dir? && 0 <= i < NENTRIES ==> Pde(tabs', d, i) == Pde(tabs, d, i))
      && (forall d, v :: 0 <= d < NFRAMES && own[d].Dir? && 0 <= v < VPAGES ==> Pte(tabs', d, v) == Pte(tabs, d, v))
  {
    var tabs', own' := tabs[t := Filled(0, NENTRIES)], own[t := Dir(true)];
    LooseTabs(tabs, own, tabs', t, Taken);
    forall d, i | 0 <= d < NFRAMES && own'[d].Dir? && 0 <= i < NENTRIES ensures PdeOk(tabs', own', d, i) {
      if d != t {
        assert PdeOk(tabs, own, d, i);
      }
    }
  }

  ghost predicate Mine(o: Owner, f: nat, d: nat) { f == d || (o.Table? && o.d == d) || (o.Page? && o.d == d) }

  ghost function Detached(own: Owners, d: nat): (r: Owners)
    requires |own| == NFRAMES
    ensures |r| == NFRAMES
  {
    seq(NFRAMES, f requires 0 <= f < NFRAMES => if Mine(own[f], f, d) then Taken else own[f])
  }

  /** A directory without user pages that nobody runs on. */
  ghost predicate Deserted(m: M, g: G, d: nat) {
    && Inv(m, g) && d < NFRAMES && g.own[d].Dir?
    && (forall f :: 0 <= f < NFRAMES && g.own[f].Page? ==> g.own[f].d != d)
    && forall p :: 0 <= p < |m.procs| && m.procs[p].state == Ready ==> m.procs[p].pgdir != d
  }

  lemma DetachTabs(m: M, g: G, d: nat)
    requires Deserted(m, g, d)
    ensures TabsOk(m.tabs, Detached(g.own, d)) && PagesOk(m.tabs, Detached(g.own, d))
  {
    hide ListOk, Present, FrameOf, SlotOk;
    var own' := Detached(g.own, d);
    forall x, i | 0 <= x < NFRAMES && own'[x].Dir? && 0 <= i < NENTRIES ensures PdeOk(m.tabs, own', x, i) {
      assert PdeOk(m.tabs, g.own, x, i);
    }
    forall x, v | 0 <= x < NFRAMES && own'[x].Dir? && 0 <= v < UPAGES ensures PageOk(m.tabs, own', x, v) {
      assert PageOk(m.tabs, g.own, x, v);
    }
    forall f | 0 <= f < NFRAMES && own'[f].Table? ensures TableHeld(m.tabs, own', f, own'[f].d, own'[f].i) {
      assert TableHeld(m.tabs, g.own, f, g.own[f].d, g.own[f].i);
    }
    forall f | 0 <= f < NFRAMES && own'[f].Page? ensures PageHeld(m.tabs, own', f, own'[f].d, own'[f].v) {
      assert PageHeld(m.tabs, g.own, f, g.own[f].d, g.own[f].v);
    }
  }

  lemma DetachList(m: M, g: G, d: nat)
    requires Deserted(m, g, d)
    ensures ListOk(m.data, m.link, m.head, g.free, Detached(g.own, d))
  {
    hide Junk, Addr, Below, TabsOk, PagesOk, SlotsOk;
  }

  lemma Detach(m: M, g: G, d: nat)
    requires Deserted(m, g, d)
    ensures var g' := g.(own := Detached(g.own, d)); Inv(m, g') && Quiet(m, g, m, g', Hole(d, 0, VPAGES), NFRAMES)
  {
    DetachTabs(m, g, d);
    DetachList(m, g, d);
    hide ListOk, TabsOk, PagesOk, Seen, Pte, SlotOk;
    var g' := g.(own := Detached(g.own, d));
    forall d', v | 0 <= d' < NFRAMES && g.own[d'].Dir? && 0 <= v < UPAGES
      ensures Seen(m, g', d', v) == Seen(m, g, d', v)
    {
      SeenFree(m, g, g', d', v);
    }
  }

  lemma SeenFree(m: M, g: G, g': G, d: nat, v: nat)
    requires Shaped(m, g) && Shaped(m, g') && d < NFRAMES && v < UPAGES
    ensures Seen(m, g', d, v) == Seen(m, g, d, v)
  {
  }

  // Writing a frame the kernel holds.

  lemma HeldList(m: M, g: G, t: nat, page: seq<nat>)
    requires Shaped(m, g) && FreeOk(m, g) && t < NFRAMES && g.own[t].Taken?
    ensures ListOk(m.data[t := page], m.link, m.head, g.free, g.own)
  {
    hide Junk, Addr, Below;
    forall f | 0 <= f < NFRAMES && g.own[f].Free? ensures FreeFrame(m.data[t := page], m.link, g.free, f, g.own[f].k) {
      assert FreeFrame(m.data, m.link, g.free, f, g.own[f].k);
    }
  }

  lemma HeldWritten(m: M, g: G, t: nat, page: seq<nat>)
    requires Inv(m, g) && t < NFRAMES && g.own[t].Taken? && |page| == PGSIZE
    ensures var m' := m.(data := m.data[t := page]); Inv(m', g) && Quiet(m, g, m', g, NOWHERE, t) && Evicts(m, g, m', g)
  {
    hide ListOk, TabsOk, PagesOk, SlotsOk, ProcsOk, Quiet, Evicts;
    HeldList(m, g, t, page);
    LooseKeeps(m, g, m.(data := m.data[t := page]), g, t, Taken);
  }
}
