/** A machine on which copyuvm (vm.c) gives a child a page that is not its parent's. */
module CopyExample {
  import opened Params
  import opened Paging
  import opened Victims
  import opened PageSwap
  import opened VmSteps
  import opened Vm
  import opened CopySpace

  // Directory 1 maps pages 0 and 1, both idle, to frames 3 and 4; frames 5 to 14 are free.

  const SEVENS := 7

  function LossTabs(): (r: Tables)
    ensures TabsShaped(r)
  {
    var empty := Filled(0, NENTRIES);
    var dir := [2 * PGSIZE + 7] + Filled(0, NENTRIES - 1);
    var table := [3 * PGSIZE + 7, 4 * PGSIZE + 7] + Filled(0, NENTRIES - 2);
    seq(NFRAMES, f => if f == 1 then dir else if f == 2 then table else empty)
  }

  function LossLink(f: nat): nat { if 5 < f <= 14 then Addr(f - 1) else 0 }

  function LossLinks(): (r: seq<nat>)
    ensures |r| == NFRAMES
  {
    seq(NFRAMES, f requires 0 <= f < NFRAMES => LossLink(f))
  }

  function LossData(): (r: seq<seq<nat>>)
    ensures |r| == NFRAMES && forall f :: 0 <= f < NFRAMES ==> |r[f]| == PGSIZE
  {
    var page := Filled(SEVENS, PGSIZE);
    seq(NFRAMES, f requires 0 <= f < NFRAMES => if 5 <= f <= 14 then Junk(LossLink(f)) else page)
  }

  function LossM(): M {
    var block := Filled(0, BSIZE);
    M(LossData(), LossTabs(), LossLinks(), Addr(14), 1, seq(NSLOTS, s => Slot(0, true)),
      seq(SWAPSTART + NSLOTS * SLOTBLOCKS, b => block), [Proc(Ready, 1, 2, 1)], 100, 4)
  }

  ghost function LossOwn(): (r: Owners)
    ensures |r| == NFRAMES
  {
    seq(NFRAMES, f =>
      if f == 0 then Reserved else if f == 1 then Dir(true) else if f == 2 then Table(1, 0)
      else if f == 3 then Page(1, 0)
      else if f == 4 then Page(1, 1) else if 5 <= f <= 14 then Free(f - 5) else Taken)
  }

  ghost function LossG(): G { G(LossOwn(), LossFree(), seq(NSLOTS, s => (0, 0))) }

  ghost function LossFree(): (r: seq<nat>)
    ensures |r| == 10 && forall k :: 0 <= k < 10 ==> r[k] == k + 5
  {
    seq(10, k requires 0 <= k < 10 => k + 5)
  }

  lemma LossEntries(v: nat)
    requires v < VPAGES
    ensures Pte(LossTabs(), 1, v) == if v < 2 then (3 + v) * PGSIZE + 7 else 0
    ensures HasTable(LossTabs(), 1, 0)
  {
    var tabs := LossTabs();
    assert Pde(tabs, 1, 0) == 2 * PGSIZE + 7 && (forall i :: 0 < i < NENTRIES ==> Pde(tabs, 1, i) == 0);
    Built(2, 7);
  }

  lemma LossBits(v: nat)
    requires v < 2
    ensures var e := (3 + v) * PGSIZE + 7; Present(e) && User(e) && !Accessed(e) && FrameOf(e) == 3 + v
  {
    var e := (3 + v) * PGSIZE + 7;
    Built(3 + v, 7);
    FlagsLow(e);
  }

  lemma LossTabsOk()
    ensures TabsOk(LossTabs(), LossOwn())
  {
    var tabs, own := LossTabs(), LossOwn();
    assert Pde(tabs, 1, 0) == 2 * PGSIZE + 7 && (forall i :: 0 < i < NENTRIES ==> Pde(tabs, 1, i) == 0);
    Built(2, 7);
    forall d, i | 0 <= d < NFRAMES && own[d].Dir? && 0 <= i < NENTRIES ensures PdeOk(tabs, own, d, i) {
      assert d == 1;
    }
  }

  lemma LossShaped()
    ensures Shaped(LossM(), LossG()) && LossM().data == LossData() && LossM().link == LossLinks()
  {
    hide Junk, Addr, LossTabs, Filled;
  }

  lemma LossFrame(f: nat)
    requires 5 <= f <= 14
    ensures |LossData()| == |LossLinks()| == NFRAMES && FreeFrame(LossData(), LossLinks(), LossFree(), f, f - 5)
  {
    hide Junk, Addr, Filled, LossFree;
  }

  lemma LossList()
    ensures var m, g := LossM(), LossG(); Shaped(m, g) && FreeOk(m, g)
  {
    LossShaped();
    hide Junk, Addr, LossTabs, Filled, FreeFrame, LossFree, LossData, LossLinks;
    var own, free := LossOwn(), LossFree();
    forall f | 0 <= f < NFRAMES && own[f].Free? ensures FreeFrame(LossData(), LossLinks(), free, f, own[f].k) {
      LossFrame(f);
    }
  }

  lemma LossInv()
    ensures Inv(LossM(), LossG())
  {
    var m, g := LossM(), LossG();
    LossList();
    LossTabsOk();
    hide FreeOk, Filled, LossTabs, TabsOk, Pte, Junk, Addr, LossLink;
    forall d, v | 0 <= d < NFRAMES && g.own[d].Dir? && 0 <= v < UPAGES
      ensures PageOk(m.tabs, g.own, d, v) && SlotOk(Pte(m.tabs, d, v), d, v, m.slots, g.sown)
    {
      LossEntries(v);
      if v < 2 {
        LossBits(v);
      }
    }
    LossEntries(0);
    LossBits(0);
    LossEntries(1);
    LossBits(1);
    assert PageHeld(m.tabs, g.own, 3, 1, 0) && PageHeld(m.tabs, g.own, 4, 1, 1);
  }

  /** Page 0 is the first to go, two pages can go, and ten frames are what setupkvm takes. */
  lemma LossReady()
    ensures var m, g := LossM(), LossG();
      && Inv(m, g) && g.own[1] == Dir(true) && HasTable(m.tabs, 1, 0) && Doomed(m, 1, 0)
      && Near(m, 1, 0) && Fits(m, g, 1, 0) && |g.free| == Cost(0)
      && Gives(m, g.(free := []), 2)
      && Seen(m, g, 1, 0) == Mapped(Filled(SEVENS, PGSIZE), Perm(3 * PGSIZE + 7))
  {
    var m, g := LossM(), LossG();
    LossInv();
    hide Inv, Filled, LossTabs, Pte, Junk, Addr, LossLink;
    LossEntries(0);
    LossBits(0);
    NineTables();
    hide KernelTables;
    assert KernelTables() + Spanning(0, 0) == KernelTables();
    OutsGrow(m, 1, 0);
    assert Outs(m, 1, 0) == {};
    assert IsVictim(m.procs, 0);
    assert m.slots[0].isFree;
    LowestIdleDoomed(m, g, 0, 0);
    LossBatch();
  }

  lemma LossBatch()
    ensures Batch(LossM(), 1) == 2
  {
    var m := LossM();
    hide Filled, LossTabs, Pte, Junk, Addr, LossLink;
    forall u: nat | u < UPAGES ensures Evictable(Pte(m.tabs, 1, u)) <==> u < 2 {
      LossEntries(u);
      if u < 2 {
        LossBits(u);
      }
    }
    assert Evictables(m.tabs, 1) == {0, 1};
    Subset({0, 1}, FreeSlots(m.slots));
  }

  lemma NotSpoilt()
    ensures !Spoilt(Filled(SEVENS, PGSIZE))
  {
    var page := Filled(SEVENS, PGSIZE);
    assert page[4] == SEVENS;
    assert forall w: nat :: Junk(w)[4] == 1;
  }

  /** The fork succeeds, and page 0 of the child is not page 0 of the parent, which still sees its sevens. */
  method ForkLosesPage() returns (k: Machine, d: nat)
    ensures k.Valid() && Shaped(k.m, k.g) && 0 < d < NFRAMES && k.g.own[1] == k.g.own[d] == Dir(true)
    ensures Seen(k.m, k.g, 1, 0) == Mapped(Filled(SEVENS, PGSIZE), Perm(3 * PGSIZE + 7))
    ensures Seen(k.m, k.g, d, 0) != Seen(k.m, k.g, 1, 0)
  {
    hide Inv, LossM, LossG, Pte, Seen, Near, Fits, Cost, Doomed, Gives, Quiet, Copying, Filled, NoneTaken, HasTable,
         Perm, Pages;
    LossReady();
    var m0 := LossM();
    ghost var g0 := LossG();
    Shapes(m0, g0);
    LossCounts();
    k := new Machine.At(m0, g0, 25, 10);
    ghost var lost;
    var panic;
    panic, d, lost := CopyUvm(k, 1, PGSIZE, 300, 0, 0);
    Shapes(k.m, k.g);
    LossSeen(Origin(m0, g0, 300), k.m, k.g, d, lost);
  }

  lemma LossCounts()
    ensures |LossM().procs| == 1 && LossM().procs[0].state == Ready && Pages(PGSIZE) == 1
    ensures forall v :: 0 <= v < Pages(PGSIZE) ==> HasTable(LossM().tabs, 1, v / NENTRIES)
  {
    LossEntries(0);
    assert forall v :: 0 <= v < Pages(PGSIZE) ==> v / NENTRIES == 0;
  }

  lemma LossSeen(x: Origin, m: M, g: G, d: nat, lost: set<nat>)
    requires Copying(x, m, g, 1, d, 1, lost) && 0 in lost && Shaped(x.m, x.g) && d != 0
    requires Seen(x.m, x.g, 1, 0) == Mapped(Filled(SEVENS, PGSIZE), Perm(3 * PGSIZE + 7))
    ensures d < NFRAMES && Shaped(m, g) && g.own[1] == g.own[d] == Dir(true)
    ensures Seen(m, g, 1, 0) == Seen(x.m, x.g, 1, 0) && Seen(m, g, d, 0) != Seen(m, g, 1, 0)
  {
    NotSpoilt();
    hide Inv, Seen, KernelMapped, PdeKept, OwnerKept, Filled, Spoilt, Perm;
    assert CopiedAt(m, g, 1, d, 0, lost);
    assert PageKept(x.m, x.g, m, g, 1, 0);
  }
}
