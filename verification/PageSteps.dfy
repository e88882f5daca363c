/** The single changes that paging makes to the machine, and what each of them keeps. */
module PageSteps {
  import opened Paging

  // A frame that is neither directory nor table changes hands.

  predicate Loose(o: Owner) { o.Free? || o.Taken? }

  lemma LooseTabs(tabs: Tables, own: Owners, tabs': Tables, f: nat, o: Owner)
    requires TabsShaped(tabs) && TabsShaped(tabs') && |own| == NFRAMES && TabsOk(tabs, own)
    requires f < NFRAMES && !own[f].Dir? && !own[f].Table? && !o.Dir? && !o.Table? && tabs' == tabs[f := tabs'[f]]
    ensures var own' := own[f := o];
      && TabsOk(tabs', own')
      && (forall d, i :: 0 <= d < NFRAMES && own[d].Dir? && 0 <= i < NENTRIES ==> Pde(tabs', d, i) == Pde(tabs, d, i))
      && forall d, v :: 0 <= d < NFRAMES && own[d].Dir? && 0 <= v < VPAGES ==> Pte(tabs', d, v) == Pte(tabs, d, v)
  {
    var own' := own[f := o];
    forall d, i | 0 <= d < NFRAMES && own[d].Dir? && 0 <= i < NENTRIES
      ensures Pde(tabs', d, i) == Pde(tabs, d, i) && PdeOk(tabs', own', d, i)
    {
      assert PdeOk(tabs, own, d, i);
    }
    forall d, v | 0 <= d < NFRAMES && own[d].Dir? && 0 <= v < VPAGES ensures Pte(tabs', d, v) == Pte(tabs, d, v) {
      assert PdeOk(tabs, own, d, v / NENTRIES);
    }
  }

  ghost predicate LooseStep(m: M, g: G, m': M, g': G, f: nat, o: Owner) {
    && Shaped(m, g) && Shaped(m', g') && TabsOk(m.tabs, g.own)
    && f < NFRAMES && Loose(g.own[f]) && Loose(o) && g'.own == g.own[f := o] && g'.sown == g.sown
    && m'.tabs == m.tabs[f := m'.tabs[f]] && m'.data == m.data[f := m'.data[f]]
    && m'.slots == m.slots && m'.disk == m.disk && m'.procs == m.procs && m'.end == m.end && Policy(m')
  }

  lemma LooseEntry(m: M, g: G, m': M, g': G, f: nat, o: Owner, d: nat, v: nat)
    requires LooseStep(m, g, m', g', f, o) && d < NFRAMES && g.own[d].Dir? && v < VPAGES
    ensures Pte(m'.tabs, d, v) == Pte(m.tabs, d, v)
    ensures v < UPAGES && PageOk(m.tabs, g.own, d, v) ==>
      PageOk(m'.tabs, g'.own, d, v) && Seen(m', g', d, v) == Seen(m, g, d, v)
  {
    LooseTabs(m.tabs, g.own, m'.tabs, f, o);
  }

  lemma LooseInv(m: M, g: G, m': M, g': G, f: nat, o: Owner)
    requires Inv(m, g) && LooseStep(m, g, m', g', f, o) && FreeOk(m', g')
    ensures Inv(m', g')
  {
    hide FreeOk, Seen, PageOk, SlotOk;
    LooseTabs(m.tabs, g.own, m'.tabs, f, o);
    forall d, v | 0 <= d < NFRAMES && g.own[d].Dir? && 0 <= v < UPAGES ensures PageOk(m'.tabs, g'.own, d, v) {
      assert PageOk(m.tabs, g.own, d, v);
      LooseEntry(m, g, m', g', f, o, d, v);
    }
  }

  lemma LooseKeeps(m: M, g: G, m': M, g': G, f: nat, o: Owner)
    requires Inv(m, g) && LooseStep(m, g, m', g', f, o) && FreeOk(m', g')
    ensures Inv(m', g') && Quiet(m, g, m', g', NOWHERE, f) && Evicts(m, g, m', g')
  {
    hide FreeOk, Seen, Pte, PageOk, SlotOk, SlotsOk, TabsOk;
    LooseInv(m, g, m', g', f, o);
    forall d, v | 0 <= d < NFRAMES && g.own[d].Dir? && 0 <= v < VPAGES ensures PageKept(m, g, m', g', d, v) {
      assert v < UPAGES ==> PageOk(m.tabs, g.own, d, v);
      LooseEntry(m, g, m', g', f, o, d, v);
    }
    forall d, v | 0 <= d < NFRAMES && g.own[d].Dir? && 0 <= v < UPAGES
      ensures Shrinks(Pte(m.tabs, d, v), Pte(m'.tabs, d, v), m.slots)
    {
      LooseEntry(m, g, m', g', f, o, d, v);
    }
  }

  // kalloc takes the first frame of the free list, kfree puts one in front.

  function Popped(m: M): M
    requires m.head >= KERNBASE && FrameAt(m.head) < |m.data| == |m.tabs| == |m.link|
  {
    var f := FrameAt(m.head);
    m.(data := m.data[f := Filled(5, PGSIZE)], tabs := m.tabs[f := Filled(0x0505_0505, NENTRIES)], head := m.link[f])
  }

  ghost function PoppedG(g: G): G
    requires g.free != [] && g.free[|g.free| - 1] < |g.own|
  {
    var k := |g.free| - 1;
    g.(own := g.own[g.free[k] := Taken], free := g.free[..k])
  }

  lemma PopHead(data: seq<seq<nat>>, link: seq<nat>, head: nat, free: seq<nat>, own: Owners)
    requires |data| == |link| == |own| == NFRAMES && ListOk(data, link, head, free, own) && free != []
    ensures head >= KERNBASE && FrameAt(head) == free[|free| - 1] < NFRAMES && own[FrameAt(head)].Free?
    ensures link[FrameAt(head)] == Below(free, |free| - 1)
  {
    hide Junk, Addr, FrameAt, FreeFrame;
    var f := free[|free| - 1];
    FrameAddr(f);
    assert own[f] == Free(|free| - 1) && head == Addr(f);
    PopLink(data, link, head, free, own);
  }

  lemma PopLink(data: seq<seq<nat>>, link: seq<nat>, head: nat, free: seq<nat>, own: Owners)
    requires |data| == |link| == |own| == NFRAMES && ListOk(data, link, head, free, own) && free != []
    ensures link[free[|free| - 1]] == Below(free, |free| - 1)
  {
    hide Junk, Below;
    assert FreeFrame(data, link, free, free[|free| - 1], |free| - 1);
  }

  lemma PopList(data: seq<seq<nat>>, link: seq<nat>, head: nat, free: seq<nat>, own: Owners, page: seq<nat>)
    requires |data| == |link| == |own| == NFRAMES && ListOk(data, link, head, free, own) && free != []
    ensures head >= KERNBASE && FrameAt(head) == free[|free| - 1] < NFRAMES && own[FrameAt(head)].Free?
    ensures var f, k := FrameAt(head), |free| - 1; ListOk(data[f := page], link, link[f], free[..k], own[f := Taken])
  {
    hide Junk, Addr, FrameAt, Below;
    PopHead(data, link, head, free, own);
    var f, k := FrameAt(head), |free| - 1;
    BelowPrefix(free[..k], [free[k]], k);
    assert free[..k] + [free[k]] == free;
    forall x | 0 <= x < NFRAMES && own[x].Free? && x != f
      ensures FreeFrame(data[f := page], link, free[..k], x, own[x].k)
    {
      assert FreeFrame(data, link, free, x, own[x].k);
      BelowPrefix(free[..k], [free[k]], own[x].k);
    }
  }

  lemma BelowPrefix(free: seq<nat>, more: seq<nat>, k: nat)
    requires k <= |free|
    ensures Below(free + more, k) == Below(free, k)
  {
  }

  lemma FrameAddr(f: nat)
    ensures Addr(f) >= KERNBASE && FrameAt(Addr(f)) == f
  {
  }

  lemma PopKeeps(m: M, g: G)
    requires Inv(m, g) && g.free != []
    ensures m.head >= KERNBASE && FrameAt(m.head) == g.free[|g.free| - 1] < NFRAMES
    ensures var m', g' := Popped(m), PoppedG(g);
      Inv(m', g') && Quiet(m, g, m', g', NOWHERE, NFRAMES) && Evicts(m, g, m', g')
  {
    hide FrameAt, Addr, Below, ListOk, TabsOk, PagesOk, SlotsOk, ProcsOk, Evicts, PageKept, PdeKept, Pte;
    PopList(m.data, m.link, m.head, g.free, g.own, Filled(5, PGSIZE));
    var f := g.free[|g.free| - 1];
    var m', g' := Popped(m), PoppedG(g);
    LooseKeeps(m, g, m', g', f, Taken);
    forall x | 0 <= x < NFRAMES ensures OwnerKept(g, g', NOWHERE, NFRAMES, x) {
      assert OwnerKept(g, g', NOWHERE, f, x);
    }
  }

  function Freed(m: M, f: nat): M
    requires f < |m.data| == |m.tabs| == |m.link|
  {
    m.(data := m.data[f := Junk(m.head)],
       tabs := m.tabs[f := [m.head] + Filled(0x0101_0101, NENTRIES - 1)],
       link := m.link[f := m.head],
       head := Addr(f))
  }

  ghost function FreedG(g: G, f: nat): G
    requires f < |g.own|
  {
    g.(own := g.own[f := Free(|g.free|)], free := g.free + [f])
  }

  lemma PushList(data: seq<seq<nat>>, link: seq<nat>, head: nat, free: seq<nat>, own: Owners, f: nat)
    requires |data| == |link| == |own| == NFRAMES && ListOk(data, link, head, free, own) && f < NFRAMES && !own[f].Free?
    ensures ListOk(data[f := Junk(head)], link[f := head], Addr(f), free + [f], own[f := Free(|free|)])
  {
    assert Below(free + [f], |free| + 1) == Addr(f);
    hide Junk, Addr, Below;
    var data', link', free', own' := data[f := Junk(head)], link[f := head], free + [f], own[f := Free(|free|)];
    BelowPrefix(free, [f], |free|);
    assert FreeFrame(data', link', free', f, |free|);
    forall x | 0 <= x < NFRAMES && own[x].Free? ensures FreeFrame(data', link', free', x, own[x].k) {
      assert FreeFrame(data, link, free, x, own[x].k);
      BelowPrefix(free, [f], own[x].k);
    }
  }

  /** kfree keeps the list, whatever the frame was used for. */
  lemma FreeListGrows(m: M, g: G, f: nat)
    requires Shaped(m, g) && FreeOk(m, g) && f < NFRAMES && !g.own[f].Free? && !g.own[f].Reserved?
    ensures var m', g' := Freed(m, f), FreedG(g, f); Shaped(m', g') && FreeOk(m', g')
  {
    hide Junk, Addr, ListOk;
    PushList(m.data, m.link, m.head, g.free, g.own, f);
  }

  lemma FreeKeeps(m: M, g: G, f: nat)
    requires Inv(m, g) && f < NFRAMES && g.own[f].Taken?
    ensures var m', g' := Freed(m, f), FreedG(g, f);
      Inv(m', g') && Quiet(m, g, m', g', NOWHERE, f) && Evicts(m, g, m', g')
  {
    hide Junk, Addr, FreeOk, TabsOk, PagesOk, SlotsOk, ProcsOk, Quiet, Evicts;
    FreeListGrows(m, g, f);
    LooseKeeps(m, g, Freed(m, f), FreedG(g, f), f, Free(|g.free|));
  }

  // One entry of a user page changes and the page stays what it was.

  /** swappageout: the page is in slot s and the entry names the slot. */
  ghost predicate OutReady(m: M, g: G, d: nat, v: nat, s: nat, disk: seq<seq<nat>>) {
    && Inv(m, g) && d < NFRAMES && g.own[d].Dir? && v < UPAGES && s < NSLOTS && m.slots[s].isFree
    && Present(Pte(m.tabs, d, v)) && User(Pte(m.tabs, d, v)) && FrameOf(Pte(m.tabs, d, v)) < NFRAMES
    && DiskShaped(disk) && SlotPage(disk, s) == m.data[FrameOf(Pte(m.tabs, d, v))]
    && forall s' :: 0 <= s' < NSLOTS && s' != s ==> SlotPage(disk, s') == SlotPage(m.disk, s')
  }

  ghost function OutM(m: M, g: G, d: nat, v: nat, s: nat, disk: seq<seq<nat>>): M
    requires OutReady(m, g, d, v, s, disk)
  {
    var e := Pte(m.tabs, d, v);
    m.(slots := m.slots[s := Slot(Flags(e), false)], disk := disk, tabs := SetPte(m.tabs, d, v, SwapEntry(s, e)))
  }

  ghost function OutG(m: M, g: G, d: nat, v: nat, s: nat, disk: seq<seq<nat>>): G
    requires OutReady(m, g, d, v, s, disk)
  {
    g.(own := g.own[FrameOf(Pte(m.tabs, d, v)) := Taken], sown := g.sown[s := (d, v)])
  }

  ghost predicate OutOk(m: M, g: G, m': M, g': G, d: nat, v: nat, s: nat) {
    && Shaped(m, g) && Shaped(m', g') && d < NFRAMES && v < UPAGES && s < NSLOTS && g.own[d].Dir?
    && TabsOk(m'.tabs, g'.own) && FreeOk(m', g') && FrameOf(Pte(m.tabs, d, v)) < NFRAMES
    && g.own[FrameOf(Pte(m.tabs, d, v))] == Page(d, v) && g'.own == g.own[FrameOf(Pte(m.tabs, d, v)) := Taken]
    && g'.sown == g.sown[s := (d, v)]
    && (forall f :: 0 <= f < NFRAMES && g.own[f].Dir? ==> m'.tabs[f] == m.tabs[f])
    && (forall d', v' :: 0 <= d' < NFRAMES && g.own[d'].Dir? && 0 <= v' < VPAGES ==>
          Pte(m'.tabs, d', v') == if d' == d && v' == v then SwapEntry(s, Pte(m.tabs, d, v)) else Pte(m.tabs, d', v'))
    && (forall s' :: 0 <= s' < NSLOTS && s' != s ==> SlotPage(m'.disk, s') == SlotPage(m.disk, s'))
    && SlotPage(m'.disk, s) == m.data[FrameOf(Pte(m.tabs, d, v))]
    && m.slots[s].isFree && m'.slots == m.slots[s := Slot(Flags(Pte(m.tabs, d, v)), false)]
    && m'.data == m.data && m'.procs == m.procs && m'.end == m.end && Policy(m')
  }

  lemma OutTaken(m: M, g: G, f: nat)
    requires Shaped(m, g) && FreeOk(m, g) && TabsOk(m.tabs, g.own) && f < NFRAMES && g.own[f].Page?
    ensures var g' := g.(own := g.own[f := Taken]); Shaped(m, g') && FreeOk(m, g') && TabsOk(m.tabs, g'.own)
  {
    hide Junk, Addr, Present, FrameOf;
    var g' := g.(own := g.own[f := Taken]);
    forall d', i | 0 <= d' < NFRAMES && g'.own[d'].Dir? && 0 <= i < NENTRIES ensures PdeOk(m.tabs, g'.own, d', i) {
      assert PdeOk(m.tabs, g.own, d', i);
    }
  }

  lemma OutTabs(m: M, g: G, d: nat, v: nat, s: nat, disk: seq<seq<nat>>)
    requires OutReady(m, g, d, v, s, disk)
    ensures OutOk(m, g, OutM(m, g, d, v, s, disk), OutG(m, g, d, v, s, disk), d, v, s)
  {
    hide ListOk, PdeOk, SwapEntry, SlotPage, TabsOk, SlotsOk, ProcsOk;
    var e := Pte(m.tabs, d, v);
    assert PageOk(m.tabs, g.own, d, v);
    SetPteTabs(m.tabs, g.own, d, v, SwapEntry(s, e));
    var m', g' := OutM(m, g, d, v, s, disk), OutG(m, g, d, v, s, disk);
    OutTaken(m.(tabs := m'.tabs), g, FrameOf(e));
  }

  lemma OutEntry(m: M, g: G, m': M, g': G, d: nat, v: nat, s: nat, d': nat, v': nat)
    requires OutOk(m, g, m', g', d, v, s) && Present(Pte(m.tabs, d, v)) && User(Pte(m.tabs, d, v))
    requires d' < NFRAMES && g.own[d'].Dir? && v' < UPAGES && PageOk(m.tabs, g.own, d', v')
    ensures PageOk(m'.tabs, g'.own, d', v') && Shrinks(Pte(m.tabs, d', v'), Pte(m'.tabs, d', v'), m.slots)
    ensures SlotOk(Pte(m.tabs, d', v'), d', v', m.slots, g.sown) ==>
      SlotOk(Pte(m'.tabs, d', v'), d', v', m'.slots, g'.sown) && Seen(m', g', d', v') == Seen(m, g, d', v')
  {
    hide ListOk, FreeOk, TabsOk, SlotPage;
    SwapEntryFacts(s, Pte(m.tabs, d, v));
    hide Pte, SwapEntry, Flags, FrameOf, Perm;
  }

  lemma OutInv(m: M, g: G, m': M, g': G, d: nat, v: nat, s: nat)
    requires Inv(m, g) && OutOk(m, g, m', g', d, v, s) && Present(Pte(m.tabs, d, v)) && User(Pte(m.tabs, d, v))
    ensures Inv(m', g')
  {
    hide FreeOk, TabsOk, SlotPage, SwapEntry, Flags;
    SwapEntryFacts(s, Pte(m.tabs, d, v));
    hide Pte, PageOk, SlotOk, FrameOf;
    forall d', v' | 0 <= d' < NFRAMES && g.own[d'].Dir? && 0 <= v' < UPAGES
      ensures PageOk(m'.tabs, g'.own, d', v')
      ensures g.own[d'] == Dir(true) ==> SlotOk(Pte(m'.tabs, d', v'), d', v', m'.slots, g'.sown)
    {
      assert PageOk(m.tabs, g.own, d', v');
      OutEntry(m, g, m', g', d, v, s, d', v');
    }
  }

  lemma OutQuiet(m: M, g: G, m': M, g': G, d: nat, v: nat, s: nat)
    requires Inv(m, g) && OutOk(m, g, m', g', d, v, s) && Present(Pte(m.tabs, d, v)) && User(Pte(m.tabs, d, v))
    ensures Quiet(m, g, m', g', NOWHERE, NFRAMES)
  {
    hide FreeOk, TabsOk, SlotPage, Pte, PageOk, SlotOk, Seen, SwapEntry, Flags, FrameOf;
    forall d', v' | 0 <= d' < NFRAMES && g.own[d'].Dir? && 0 <= v' < VPAGES ensures PageKept(m, g, m', g', d', v') {
      if v' < UPAGES {
        assert PageOk(m.tabs, g.own, d', v');
        OutEntry(m, g, m', g', d, v, s, d', v');
      }
    }
  }

  lemma OutEvicts(m: M, g: G, m': M, g': G, d: nat, v: nat, s: nat)
    requires Inv(m, g) && OutOk(m, g, m', g', d, v, s) && Present(Pte(m.tabs, d, v)) && User(Pte(m.tabs, d, v))
    ensures Evicts(m, g, m', g')
  {
    hide FreeOk, TabsOk, SlotPage, Pte, PageOk, SlotOk, Seen, Shrinks, SwapEntry, Flags, FrameOf;
    forall d', v' | 0 <= d' < NFRAMES && g.own[d'].Dir? && 0 <= v' < UPAGES
      ensures Shrinks(Pte(m.tabs, d', v'), Pte(m'.tabs, d', v'), m.slots)
    {
      assert PageOk(m.tabs, g.own, d', v');
      OutEntry(m, g, m', g', d, v, s, d', v');
    }
  }

  /** Swapping a page out keeps every invariant and every page any live process sees. */
  lemma OutKeeps(m: M, g: G, m': M, g': G, d: nat, v: nat, s: nat)
    requires Inv(m, g) && OutOk(m, g, m', g', d, v, s) && Present(Pte(m.tabs, d, v)) && User(Pte(m.tabs, d, v))
    ensures Inv(m', g') && Quiet(m, g, m', g', NOWHERE, NFRAMES) && Evicts(m, g, m', g')
  {
    hide Inv, OutOk, Quiet, Evicts;
    OutInv(m, g, m', g', d, v, s);
    OutQuiet(m, g, m', g', d, v, s);
    OutEvicts(m, g, m', g', d, v, s);
  }

  // findpage clears Accessed bits.

  lemma ClearEntry(m: M, g: G, m': M, d: nat, v: nat, d': nat, v': nat)
    requires Inv(m, g) && d < NFRAMES && g.own[d].Dir? && v < UPAGES && Present(Pte(m.tabs, d, v))
    requires m' == m.(tabs := SetPte(m.tabs, d, v, ClearAccessed(Pte(m.tabs, d, v))))
    requires d' < NFRAMES && g.own[d'].Dir? && v' < VPAGES
    ensures v' < UPAGES ==>
      && PageOk(m'.tabs, g.own, d', v') && Shrinks(Pte(m.tabs, d', v'), Pte(m'.tabs, d', v'), m.slots)
      && (g.own[d'] == Dir(true) ==> SlotOk(Pte(m'.tabs, d', v'), d', v', m.slots, g.sown))
    ensures PageKept(m, g, m', g, d', v') && m'.tabs[d'] == m.tabs[d']
    ensures Pte(m'.tabs, d', v') == if d' == d && v' == v then ClearAccessed(Pte(m.tabs, d, v)) else Pte(m.tabs, d', v')
  {
    hide FreeOk, ListOk;
    var e := Pte(m.tabs, d, v);
    ClearAccessedFacts(e);
    SetPteAt(m.tabs, g.own, d, v, ClearAccessed(e), d', v');
    hide ClearAccessed, Perm, FrameOf, TabsOk;
    if v' < UPAGES {
      assert PageOk(m.tabs, g.own, d', v');
      assert g.own[d'] == Dir(true) ==> SlotOk(Pte(m.tabs, d', v'), d', v', m.slots, g.sown);
      hide Pte;
    }
  }

  lemma ClearKeeps(m: M, g: G, m': M, d: nat, v: nat)
    requires Inv(m, g) && d < NFRAMES && g.own[d].Dir? && v < UPAGES && Present(Pte(m.tabs, d, v))
    requires m' == m.(tabs := SetPte(m.tabs, d, v, ClearAccessed(Pte(m.tabs, d, v))))
    ensures Inv(m', g) && Quiet(m, g, m', g, NOWHERE, NFRAMES) && Evicts(m, g, m', g)
  {
    var e := Pte(m.tabs, d, v);
    ClearAccessedFacts(e);
    SetPteTabs(m.tabs, g.own, d, v, ClearAccessed(e));
    hide FreeOk, ListOk, TabsOk, Pte, PageOk, SlotOk, Seen, Shrinks, ClearAccessed, Perm, FrameOf, SetPte, PageKept;
    forall d', v' | 0 <= d' < NFRAMES && g.own[d'].Dir? && 0 <= v' < VPAGES
      ensures v' < UPAGES ==>
        && PageOk(m'.tabs, g.own, d', v') && Shrinks(Pte(m.tabs, d', v'), Pte(m'.tabs, d', v'), m.slots)
        && (g.own[d'] == Dir(true) ==> SlotOk(Pte(m'.tabs, d', v'), d', v', m.slots, g.sown))
      ensures PageKept(m, g, m', g, d', v') && m'.tabs[d'] == m.tabs[d']
    {
      ClearEntry(m, g, m', d, v, d', v');
    }
  }

  /** What eviction may do: every live page looks the same, nothing held is touched. */
  ghost predicate Still(m: M, g: G, m': M, g': G) {
    Inv(m', g') && Quiet(m, g, m', g', NOWHERE, NFRAMES) && Evicts(m, g, m', g')
  }

  lemma StillRefl(m: M, g: G)
    requires Inv(m, g)
    ensures Still(m, g, m, g)
  {
    hide Seen, Pte, FreeOk, TabsOk, PagesOk, SlotsOk;
  }

  lemma StillTrans(a: M, ga: G, b: M, gb: G, c: M, gc: G)
    requires Still(a, ga, b, gb) && Still(b, gb, c, gc)
    ensures Still(a, ga, c, gc)
  {
    QuietTrans(a, ga, b, gb, c, gc, NOWHERE, NFRAMES, NFRAMES);
    assert forall d :: 0 <= d < NFRAMES && ga.own[d].Dir? ==> OwnerKept(ga, gb, NOWHERE, NFRAMES, d);
    EvictsTrans(a, ga, b, gb, c, gc);
  }

  lemma StillDir(m: M, g: G, m': M, g': G, d: nat)
    requires Still(m, g, m', g') && d < NFRAMES && g.own[d].Dir?
    ensures g'.own[d] == g.own[d]
  {
    assert OwnerKept(g, g', NOWHERE, NFRAMES, d);
  }

  lemma StillProcs(m: M, g: G, m': M, g': G, p: nat)
    requires Still(m, g, m', g') && p < |m.procs|
    ensures |m'.procs| == |m.procs| && m'.procs[p].pgdir == m.procs[p].pgdir && m'.procs[p].state == m.procs[p].state
  {
  }

  /** No entry of any user page changes, except in directory d. */
  ghost predicate CalmBut(m: M, g: G, m': M, d: nat) {
    && |g.own| == NFRAMES && TabsShaped(m.tabs) && TabsShaped(m'.tabs)
    && forall x, v :: 0 <= x < NFRAMES && g.own[x].Dir? && x != d && 0 <= v < UPAGES ==>
         Pte(m'.tabs, x, v) == Pte(m.tabs, x, v)
  }

  ghost predicate Calm(m: M, g: G, m': M) { CalmBut(m, g, m', NFRAMES) }

  /** No entry of any user page changes, except that of page v of d. */
  ghost predicate CalmOff(m: M, g: G, m': M, d: nat, v: nat) {
    && |g.own| == NFRAMES && TabsShaped(m.tabs) && TabsShaped(m'.tabs)
    && forall x, u :: 0 <= x < NFRAMES && g.own[x].Dir? && 0 <= u < UPAGES && (x != d || u != v) ==>
         Pte(m'.tabs, x, u) == Pte(m.tabs, x, u)
  }

  lemma CalmOffBut(m: M, g: G, m': M, d: nat, v: nat)
    requires CalmOff(m, g, m', d, v)
    ensures CalmBut(m, g, m', d)
  {
    hide Pte;
  }

  lemma CalmOffTrans(m0: M, g0: G, m1: M, g1: G, m2: M, d: nat, v: nat)
    requires Calm(m0, g0, m1) && CalmOff(m1, g1, m2, d, v)
    requires forall x :: 0 <= x < NFRAMES && g0.own[x].Dir? ==> g1.own[x].Dir?
    ensures CalmOff(m0, g0, m2, d, v)
  {
    hide Pte;
  }

  lemma CalmTrans(m0: M, g0: G, m1: M, g1: G, m2: M, d: nat)
    requires CalmBut(m0, g0, m1, d) && CalmBut(m1, g1, m2, d)
    requires forall x :: 0 <= x < NFRAMES && g0.own[x].Dir? && x != d ==> g1.own[x].Dir?
    ensures CalmBut(m0, g0, m2, d)
  {
    hide Pte;
  }

  lemma CalmRefl(m: M, g: G, d: nat)
    requires Shaped(m, g)
    ensures CalmBut(m, g, m, d)
  {
  }

  lemma CalmWeak(m: M, g: G, m': M, d: nat, v: nat)
    requires Calm(m, g, m')
    ensures CalmOff(m, g, m', d, v)
  {
    hide Pte;
  }

  /** What the victim search reads besides the tables is the same. */
  ghost predicate Unmoved(m: M, m': M) { m'.procs == m.procs && m'.slots == m.slots && m'.npages == m.npages }

  ghost predicate SereneBut(m: M, g: G, m': M, d: nat) { CalmBut(m, g, m', d) && Unmoved(m, m') }

  lemma SereneTrans(m0: M, g0: G, m1: M, g1: G, m2: M, d: nat)
    requires SereneBut(m0, g0, m1, d) && SereneBut(m1, g1, m2, d)
    requires forall x :: 0 <= x < NFRAMES && g0.own[x].Dir? && x != d ==> g1.own[x].Dir?
    ensures SereneBut(m0, g0, m2, d)
  {
    hide CalmBut;
    CalmTrans(m0, g0, m1, g1, m2, d);
  }

  lemma PopCalm(m: M, g: G)
    requires Inv(m, g) && g.free != []
    ensures m.head >= KERNBASE && FrameAt(m.head) < NFRAMES && Calm(m, g, Popped(m)) && Unmoved(m, Popped(m))
  {
    PopKeeps(m, g);
    hide FreeOk, PagesOk, SlotsOk, ProcsOk, Quiet, Evicts, FrameAt, Pte;
    LooseTabs(m.tabs, g.own, Popped(m).tabs, g.free[|g.free| - 1], Taken);
  }
}
