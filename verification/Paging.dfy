/**
 * Physical frames, two-level page tables and swap slots as values: who owns each
 * frame, which slot each swapped-out entry names, and the memory a process sees.
 */
module Paging {
  import opened Params

  const PGSIZE := 4096
  const NFRAMES := 1024             // PHYSTOP / PGSIZE
  const NENTRIES := 1024            // entries in a directory and in a page table
  const VPAGES := 1048576           // pages of a 32-bit address space
  const UPAGES := 524288            // pages below KERNBASE
  const KERNBASE := 0x8000_0000
  const NSLOTS := 800
  const SWAPSTART := 2              // first disk block of the swap area
  const SLOTBLOCKS := 8

  // Entries (mmu.h). The low 12 bits are flags, the rest a frame or slot number;
  // Present is bit 0, Writable bit 1, User bit 2 and Accessed bit 5.

  predicate Present(e: nat) { e % 2 == 1 }
  predicate Writable(e: nat) { e % 4 >= 2 }
  predicate User(e: nat) { e % 8 >= 4 }
  predicate Accessed(e: nat) { e % 64 >= 32 }
  function FrameOf(e: nat): nat { e / PGSIZE }
  /** The low twelve bits of an entry. */
  type FlagBits = x: nat | x < PGSIZE

  function Flags(e: nat): FlagBits { e % PGSIZE }

  /** The entry swappageout leaves: slot number, flags without Present. */
  function SwapEntry(s: nat, e: nat): nat {
    FlagsLow(e);
    s * PGSIZE + (Flags(e) - e % 2)
  }

  /** The entry mappages writes: pa | perm | PTE_P. */
  function MapEntry(f: nat, perm: nat): nat
    requires perm < PGSIZE
  {
    f * PGSIZE + perm + 1 - perm % 2
  }

  function ClearAccessed(e: nat): nat { if Accessed(e) then e - 32 else e }

  /** The flags a process can notice: all but Present and Accessed. */
  function Perm(e: nat): nat { Bare(Flags(e)) }

  function Bare(x: nat): nat {
    var y := ClearAccessed(x);
    y - y % 2
  }

  lemma LessOne(x: nat)
    requires x % 2 == 1
    ensures (x - 1) % 2 == 0 && (x - 1) % 64 == x % 64 - 1 && x % 64 != 32
  {
    LessOneAt(x / 64, x % 64);
  }

  lemma LessOneAt(q: nat, r: nat)
    requires r < 64 && (64 * q + r) % 2 == 1
    ensures r != 0 && r != 32 && (64 * q + r - 1) % 2 == 0 && (64 * q + r - 1) % 64 == r - 1
  {
  }

  lemma BareOdd(x: nat)
    requires x % 2 == 1
    ensures (x - 1) % 2 == 0 && Bare(x - 1) == Bare(x)
  {
    LessOne(x);
    if x % 64 >= 32 {
      Less32(x);
      assert (x - 1) % 64 >= 32;
      Less32(x - 1);
      assert ClearAccessed(x) == x - 32 && ClearAccessed(x - 1) == x - 33;
    } else {
      assert ClearAccessed(x) == x && ClearAccessed(x - 1) == x - 1;
    }
  }

  lemma Mod4(q: nat, r: nat)
    requires r < 4
    ensures (4 * q + r) % 4 == r
  {
  }

  lemma FlagsWritable(e: nat)
    ensures Writable(Flags(e)) == Writable(e)
  {
    var q, x := e / PGSIZE, Flags(e);
    Mod4(1024 * q + x / 4, x % 4);
    assert e == 4 * (1024 * q + x / 4) + x % 4;
  }

  /** What a process can notice includes whether it may write and whether it may use the page at all. */
  lemma PermBits(e: nat)
    ensures User(Perm(e)) == User(e) && Writable(Perm(e)) == Writable(e)
  {
    FlagsLow(e);
    FlagsWritable(e);
    var x := Flags(e);
    hide Flags;
    var y := ClearAccessed(x);
    if Accessed(x) {
      Less32(x);
      Mod4(x / 4 - 8, x % 4);
      assert x - 32 == 4 * (x / 4 - 8) + x % 4;
    }
    hide ClearAccessed, Accessed;
    BitsEven(y);
  }

  lemma BitsEven(y: nat)
    ensures User(y - y % 2) == User(y) && Writable(y - y % 2) == Writable(y)
  {
    Low2(y / 8, y % 8);
    var r := y % 8;
    Mod8(y / 8, r - r % 2);
    assert y - y % 2 == 8 * (y / 8) + (r - r % 2);
    Low4(y / 8, r);
    Low4(y / 8, r - r % 2);
  }

  lemma Low2(q: nat, r: nat)
    ensures (8 * q + r) % 2 == r % 2
  {
    Mod2(4 * q + r / 2, r % 2);
    assert 8 * q + r == 2 * (4 * q + r / 2) + r % 2;
  }

  lemma Low4(q: nat, r: nat)
    ensures (8 * q + r) % 4 == r % 4
  {
    Mod4(2 * q + r / 4, r % 4);
    assert 8 * q + r == 4 * (2 * q + r / 4) + r % 4;
  }

  /** The low bits of an entry are those of its flags. */
  lemma FlagsLow(e: nat)
    ensures Flags(e) % 2 == e % 2 && Flags(e) % 8 == e % 8 && Flags(e) % 64 == e % 64 && Flags(e) >= e % 64
  {
    var q := e / PGSIZE;
    assert e == 64 * (64 * q) + Flags(e);
    assert e == 8 * (512 * q) + Flags(e);
    assert e == 2 * (2048 * q) + Flags(e);
  }

  /** An entry built from a number and 12 flag bits takes apart again. */
  lemma Built(s: nat, x: nat)
    requires x < PGSIZE
    ensures FrameOf(s * PGSIZE + x) == s && Flags(s * PGSIZE + x) == x
  {
  }

  lemma SwapEntryFacts(s: nat, e: nat)
    requires Present(e) && User(e)
    ensures var t := SwapEntry(s, e);
      !Present(t) && User(t) && t != 0 && FrameOf(t) == s && Flags(t) + 1 == Flags(e) && Perm(t) == Perm(e)
  {
    hide Bare, ClearAccessed;
    FlagsLow(e);
    var x := Flags(e);
    assert x >= 4;
    Built(s, x - 1);
    FlagsLow(SwapEntry(s, e));
    BareOdd(x);
    UserOdd(x);
  }

  lemma UserOdd(x: nat)
    requires x % 2 == 1 && x % 8 >= 4
    ensures (x - 1) % 8 >= 4
  {
    UserOddAt(x / 8, x % 8);
  }

  lemma UserOddAt(q: nat, r: nat)
    requires 4 <= r < 8 && (8 * q + r) % 2 == 1
    ensures (8 * q + r - 1) % 8 >= 4
  {
    Even(4 * q + 2);
    assert r != 4;
    Mod8(q, r - 1);
  }

  lemma Even(n: nat)
    ensures (2 * n) % 2 == 0
  {
  }

  lemma Mod8(q: nat, r: nat)
    requires r < 8
    ensures (8 * q + r) % 8 == r
  {
  }

  lemma MapEntryFacts(f: nat, perm: nat)
    requires perm < PGSIZE
    ensures var t := MapEntry(f, perm); Present(t) && FrameOf(t) == f && Flags(t) == perm + 1 - perm % 2
    ensures Perm(MapEntry(f, perm)) == Perm(perm)
  {
    hide Bare, ClearAccessed;
    var x := perm + 1 - perm % 2;
    assert x < PGSIZE && x % 2 == 1;
    Built(f, x);
    FlagsLow(MapEntry(f, perm));
    BareOdd(x);
    assert Flags(perm) == perm;
  }

  lemma Less32(x: nat)
    requires x % 64 >= 32
    ensures (x - 32) % 64 == x % 64 - 32 && (x - 32) % 8 == x % 8 && (x - 32) % 2 == x % 2
  {
    Less32By64(x);
    Less32By8(x);
    Less32By2(x);
  }

  lemma Less32By64(x: nat)
    requires x % 64 >= 32
    ensures (x - 32) % 64 == x % 64 - 32
  {
    Mod64(x / 64, x % 64 - 32);
    assert x - 32 == 64 * (x / 64) + (x % 64 - 32);
  }

  lemma Less32By8(x: nat)
    requires x >= 32
    ensures (x - 32) % 8 == x % 8
  {
    Mod8(x / 8 - 4, x % 8);
    assert x - 32 == 8 * (x / 8 - 4) + x % 8;
  }

  lemma Less32By2(x: nat)
    requires x >= 32
    ensures (x - 32) % 2 == x % 2
  {
    Mod2(x / 2 - 16, x % 2);
    assert x - 32 == 2 * (x / 2 - 16) + x % 2;
  }

  lemma Mod64(q: nat, r: nat)
    requires r < 64
    ensures (64 * q + r) % 64 == r
  {
  }

  lemma Mod2(q: nat, r: nat)
    requires r < 2
    ensures (2 * q + r) % 2 == r
  {
  }

  lemma ClearAccessedFacts(e: nat)
    ensures var t := ClearAccessed(e);
      && (Present(t) <==> Present(e)) && (User(t) <==> User(e)) && !Accessed(t)
      && FrameOf(t) == FrameOf(e) && Perm(t) == Perm(e)
  {
    FlagsLow(e);
    if Accessed(e) {
      var x := Flags(e);
      assert e - 32 == FrameOf(e) * PGSIZE + (x - 32);
      Built(FrameOf(e), x - 32);
      FlagsLow(e - 32);
      Less32(x);
    }
  }

  /** Out and back in: the flag bits of the remapped entry are the old ones. */
  lemma FlagsRoundTrip(s: nat, e: nat, f: nat)
    requires Present(e) && User(e)
    ensures Flags(SwapEntry(s, e)) + 1 < PGSIZE
      && Flags(MapEntry(f, Flags(SwapEntry(s, e)) + 1)) == Flags(e)
      && FrameOf(MapEntry(f, Flags(SwapEntry(s, e)) + 1)) == f
  {
    SwapEntryFacts(s, e);
    FlagsLow(e);
    MapEntryFacts(f, Flags(e));
  }

  // Page tables. Frames used as directories and page tables are read as 1024 entries.

  type Tables = seq<seq<nat>>

  predicate TabsShaped(tabs: Tables) {
    |tabs| == NFRAMES && forall f :: 0 <= f < NFRAMES ==> |tabs[f]| == NENTRIES
  }

  function Pde(tabs: Tables, d: nat, i: nat): nat
    requires TabsShaped(tabs) && d < NFRAMES && i < NENTRIES
  {
    tabs[d][i]
  }

  predicate HasTable(tabs: Tables, d: nat, i: nat)
    requires TabsShaped(tabs) && d < NFRAMES && i < NENTRIES
  {
    Present(Pde(tabs, d, i)) && FrameOf(Pde(tabs, d, i)) < NFRAMES
  }

  /** The entry of page v, 0 where the page table is missing. */
  function Pte(tabs: Tables, d: nat, v: nat): nat
    requires TabsShaped(tabs) && d < NFRAMES && v < VPAGES
  {
    if HasTable(tabs, d, v / NENTRIES) then tabs[FrameOf(Pde(tabs, d, v / NENTRIES))][v % NENTRIES] else 0
  }

  function SetPte(tabs: Tables, d: nat, v: nat, e: nat): (r: Tables)
    requires TabsShaped(tabs) && d < NFRAMES && v < VPAGES && HasTable(tabs, d, v / NENTRIES)
    ensures TabsShaped(r)
  {
    var t := FrameOf(Pde(tabs, d, v / NENTRIES));
    var row: seq<nat> := tabs[t][v % NENTRIES := e];
    tabs[t := row]
  }

  // Who holds each frame. A directory is live until swapFree has released its slots.

  datatype Owner =
    | Free(k: nat)                  // on the free list, k places above its bottom
    | Reserved                      // below end
    | Taken                         // handed out by kalloc and not mapped
    | Dir(live: bool)
    | Table(d: nat, i: nat)
    | Page(d: nat, v: nat)

  type Owners = seq<Owner>

  /** A directory entry leaves everything to the page table: it allows user accesses and writes. */
  predicate Open(e: nat) { Writable(e) && User(e) }

  ghost predicate PdeOk(tabs: Tables, own: Owners, d: nat, i: nat)
    requires TabsShaped(tabs) && |own| == NFRAMES && d < NFRAMES && i < NENTRIES
  {
    Present(Pde(tabs, d, i)) ==>
      && Open(Pde(tabs, d, i))
      && FrameOf(Pde(tabs, d, i)) < NFRAMES && own[FrameOf(Pde(tabs, d, i))] == Table(d, i)
  }

  ghost predicate TableHeld(tabs: Tables, own: Owners, f: nat, d: nat, i: nat)
    requires TabsShaped(tabs) && |own| == NFRAMES
  {
    d < NFRAMES && own[d].Dir? && i < NENTRIES && Present(Pde(tabs, d, i)) && FrameOf(Pde(tabs, d, i)) == f
  }

  /** The frames that hold page tables are exactly those the directories point at. */
  ghost predicate TabsOk(tabs: Tables, own: Owners)
    requires TabsShaped(tabs) && |own| == NFRAMES
  {
    && (forall d, i :: 0 <= d < NFRAMES && own[d].Dir? && 0 <= i < NENTRIES ==> PdeOk(tabs, own, d, i))
    && (forall f :: 0 <= f < NFRAMES && own[f].Table? ==> TableHeld(tabs, own, f, own[f].d, own[f].i))
  }

  ghost predicate PageOk(tabs: Tables, own: Owners, d: nat, v: nat)
    requires TabsShaped(tabs) && |own| == NFRAMES && d < NFRAMES && v < UPAGES
  {
    var e := Pte(tabs, d, v);
    Present(e) ==> FrameOf(e) < NFRAMES && own[FrameOf(e)] == Page(d, v)
  }

  ghost predicate PageHeld(tabs: Tables, own: Owners, f: nat, d: nat, v: nat)
    requires TabsShaped(tabs) && |own| == NFRAMES
  {
    d < NFRAMES && own[d].Dir? && v < UPAGES && Present(Pte(tabs, d, v)) && FrameOf(Pte(tabs, d, v)) == f
  }

  /** The frames that hold user pages are exactly those the present user entries name. */
  ghost predicate PagesOk(tabs: Tables, own: Owners)
    requires TabsShaped(tabs) && |own| == NFRAMES
  {
    && (forall d, v :: 0 <= d < NFRAMES && own[d].Dir? && 0 <= v < UPAGES ==> PageOk(tabs, own, d, v))
    && (forall f :: 0 <= f < NFRAMES && own[f].Page? ==> PageHeld(tabs, own, f, own[f].d, own[f].v))
  }

  // Swap slots.

  datatype Slot = Slot(perm: FlagBits, isFree: bool)

  /** A swapped-out entry names a used slot, recorded as its own, that keeps its flags. */
  ghost predicate SlotOk(e: nat, d: nat, v: nat, slots: seq<Slot>, sown: seq<(nat, nat)>)
    requires |slots| == |sown| == NSLOTS
  {
    !Present(e) && e != 0 ==>
      var s := FrameOf(e);
      s < NSLOTS && !slots[s].isFree && slots[s].perm == Flags(e) + 1 && sown[s] == (d, v) && User(e)
  }

  ghost predicate SlotsOk(tabs: Tables, own: Owners, slots: seq<Slot>, sown: seq<(nat, nat)>)
    requires TabsShaped(tabs) && |own| == NFRAMES && |slots| == |sown| == NSLOTS
  {
    forall d, v :: 0 <= d < NFRAMES && own[d] == Dir(true) && 0 <= v < UPAGES ==>
         SlotOk(Pte(tabs, d, v), d, v, slots, sown)
  }

  /** Swapped-out entries of live directories. */
  ghost predicate Names(tabs: Tables, own: Owners, d: nat, v: nat, s: nat)
    requires TabsShaped(tabs) && |own| == NFRAMES
  {
    && d < NFRAMES && own[d] == Dir(true) && v < UPAGES
    && !Present(Pte(tabs, d, v)) && Pte(tabs, d, v) != 0 && FrameOf(Pte(tabs, d, v)) == s
  }

  ghost predicate Unnamed(tabs: Tables, own: Owners, s: nat)
    requires TabsShaped(tabs) && |own| == NFRAMES
  {
    forall d, v :: !Names(tabs, own, d, v, s)
  }

  // One entry changes.

  lemma SetPteAt(tabs: Tables, own: Owners, d: nat, v: nat, e: nat, d': nat, v': nat)
    requires TabsShaped(tabs) && |own| == NFRAMES && TabsOk(tabs, own)
    requires d < NFRAMES && own[d].Dir? && v < VPAGES && HasTable(tabs, d, v / NENTRIES)
    requires d' < NFRAMES && own[d'].Dir? && v' < VPAGES
    ensures var r := SetPte(tabs, d, v, e);
      && r[d'] == tabs[d']
      && HasTable(r, d', v' / NENTRIES) == HasTable(tabs, d', v' / NENTRIES)
      && Pte(r, d', v') == if d' == d && v' == v then e else Pte(tabs, d', v')
  {
    assert PdeOk(tabs, own, d, v / NENTRIES) && PdeOk(tabs, own, d', v' / NENTRIES);
  }

  lemma SetPteTabs(tabs: Tables, own: Owners, d: nat, v: nat, e: nat)
    requires TabsShaped(tabs) && |own| == NFRAMES && TabsOk(tabs, own)
    requires d < NFRAMES && own[d].Dir? && v < VPAGES && HasTable(tabs, d, v / NENTRIES)
    ensures var r := SetPte(tabs, d, v, e);
      && TabsOk(r, own)
      && (forall f :: 0 <= f < NFRAMES && !own[f].Table? ==> r[f] == tabs[f])
      && (forall d', v' :: 0 <= d' < NFRAMES && own[d'].Dir? && 0 <= v' < VPAGES ==>
            Pte(r, d', v') == if d' == d && v' == v then e else Pte(tabs, d', v'))
  {
    var r := SetPte(tabs, d, v, e);
    assert PdeOk(tabs, own, d, v / NENTRIES);
    forall f | 0 <= f < NFRAMES && !own[f].Table? ensures r[f] == tabs[f] {}
    forall d', i | 0 <= d' < NFRAMES && own[d'].Dir? && 0 <= i < NENTRIES ensures PdeOk(r, own, d', i) {
      assert PdeOk(tabs, own, d', i);
    }
    forall d', v' | 0 <= d' < NFRAMES && own[d'].Dir? && 0 <= v' < VPAGES
      ensures Pte(r, d', v') == if d' == d && v' == v then e else Pte(tabs, d', v')
    {
      SetPteAt(tabs, own, d, v, e, d', v');
    }
  }

  // The machine. Each frame is kept as its bytes and, for directories and page
  // tables, as its entries; the link a free frame stores in its first word is kept apart.

  /** Ready stands for every state after EMBRYO. */
  datatype PState = Unused | Embryo | Ready

  /** A C uint. */
  const UINT := 0x1_0000_0000
  type Uint = x: nat | x < UINT

  /** The fields of a process that the victim search reads. */
  datatype Proc = Proc(state: PState, pid: int, rss: Uint, pgdir: nat)

  datatype M = M(
    data: seq<seq<nat>>,
    tabs: Tables,
    link: seq<nat>,                 // address of the next free frame, 0 at the end
    head: nat,                      // kmem.freelist
    end: nat,                       // first frame the allocator manages
    slots: seq<Slot>,
    disk: seq<seq<nat>>,
    procs: seq<Proc>,
    threshold: nat,
    npages: nat)

  /** What the proofs keep beside the machine: owners, the free list, slot owners. */
  datatype G = G(own: Owners, free: seq<nat>, sown: seq<(nat, nat)>)

  function Addr(f: nat): nat { KERNBASE + f * PGSIZE }
  function FrameAt(a: nat): nat
    requires a >= KERNBASE
  {
    (a - KERNBASE) / PGSIZE
  }

  /** A freed page: its link, then ones. */
  function Junk(next: nat): (r: seq<nat>)
    ensures |r| == PGSIZE
  {
    [next % 256, next / 256 % 256, next / 65536 % 256, next / 0x100_0000] + seq(PGSIZE - 4, i => 1)
  }

  function Filled(x: nat, n: nat): (r: seq<nat>)
    ensures |r| == n && forall i :: 0 <= i < n ==> r[i] == x
  {
    seq(n, i => x)
  }

  ghost predicate Shaped(m: M, g: G) {
    && |m.data| == |m.link| == |g.own| == NFRAMES && TabsShaped(m.tabs)
    && (forall f :: 0 <= f < NFRAMES ==> |m.data[f]| == PGSIZE)
    && |m.slots| == |g.sown| == NSLOTS
    && DiskShaped(m.disk)
  }

  ghost predicate DiskShaped(disk: seq<seq<nat>>) {
    |disk| >= SWAPSTART + NSLOTS * SLOTBLOCKS && forall b :: 0 <= b < |disk| ==> |disk[b]| == BSIZE
  }

  ghost predicate FreeFrame(data: seq<seq<nat>>, link: seq<nat>, free: seq<nat>, f: nat, k: nat)
    requires |data| == |link| == NFRAMES && f < NFRAMES
  {
    && k < |free| && free[k] == f
    && link[f] == Below(free, k)
    && data[f] == Junk(link[f])
  }

  /** The address of the frame under position k of the free list. */
  ghost function Below(free: seq<nat>, k: nat): nat
    requires k <= |free|
  {
    if k == 0 then 0 else Addr(free[k - 1])
  }

  /** The linked list from head holds exactly the frames owned by nobody, each once. */
  ghost predicate ListOk(data: seq<seq<nat>>, link: seq<nat>, head: nat, free: seq<nat>, own: Owners)
    requires |data| == |link| == |own| == NFRAMES
  {
    && (forall k :: 0 <= k < |free| ==> free[k] < NFRAMES && own[free[k]] == Free(k))
    && (forall f :: 0 <= f < NFRAMES && own[f].Free? ==> FreeFrame(data, link, free, f, own[f].k))
    && head == Below(free, |free|)
  }

  ghost predicate FreeOk(m: M, g: G)
    requires Shaped(m, g)
  {
    && ListOk(m.data, m.link, m.head, g.free, g.own)
    && 1 <= m.end <= NFRAMES
    && forall f :: 0 <= f < NFRAMES ==> (g.own[f].Reserved? <==> f < m.end)
  }

  predicate Candidate(p: Proc) { p.state != Unused && p.pid >= 1 && p.rss != 0 }

  /** Every process past EMBRYO has a directory; before that it counts no resident page. */
  ghost predicate ProcOk(p: Proc, own: Owners)
    requires |own| == NFRAMES
  {
    (p.state == Ready ==> p.pgdir < NFRAMES && own[p.pgdir].Dir?) && (p.state == Embryo ==> p.rss == 0)
  }

  ghost predicate ProcsOk(procs: seq<Proc>, own: Owners)
    requires |own| == NFRAMES
  {
    forall p :: 0 <= p < |procs| ==> ProcOk(procs[p], own)
  }

  ghost predicate Policy(m: M) { m.threshold >= 1 && 1 <= m.npages <= 100 }

  ghost predicate Inv(m: M, g: G) {
    && Shaped(m, g) && FreeOk(m, g) && TabsOk(m.tabs, g.own) && PagesOk(m.tabs, g.own)
    && SlotsOk(m.tabs, g.own, m.slots, g.sown) && ProcsOk(m.procs, g.own) && Policy(m)
  }

  // The memory a process sees.

  datatype View = Unmapped | Mapped(bytes: seq<nat>, perm: nat)

  function SlotPage(disk: seq<seq<nat>>, s: nat): (r: seq<nat>)
    requires DiskShaped(disk) && s < NSLOTS
    ensures |r| == PGSIZE
  {
    seq(PGSIZE, i requires 0 <= i < PGSIZE => disk[SWAPSTART + s * SLOTBLOCKS + i / BSIZE][i % BSIZE])
  }

  /** Page v of directory d: its frame if present, its slot if swapped out. */
  ghost function Seen(m: M, g: G, d: nat, v: nat): View
    requires Shaped(m, g) && d < NFRAMES && v < UPAGES
  {
    var e := Pte(m.tabs, d, v);
    var n := FrameOf(e);
    if Present(e) then (if n < NFRAMES then Mapped(m.data[n], Perm(e)) else Unmapped)
    else if e != 0 && n < NSLOTS then Mapped(SlotPage(m.disk, n), Perm(e))
    else Unmapped
  }

  /**
   * What the processor lets user code do with page v: both levels must be present and allow
   * it, and each must allow a write.
   */
  predicate UserMay(tabs: Tables, d: nat, v: nat, write: bool)
    requires TabsShaped(tabs) && d < NFRAMES && v < VPAGES
  {
    var pde := Pde(tabs, d, v / NENTRIES);
    && Present(pde) && User(pde) && (write ==> Writable(pde)) && FrameOf(pde) < NFRAMES
    && var pte := tabs[FrameOf(pde)][v % NENTRIES];
    Present(pte) && User(pte) && (write ==> Writable(pte))
  }

  /** The permission a process sees is what the processor grants while the page is in memory. */
  lemma HardwareGrants(m: M, g: G, d: nat, v: nat, write: bool)
    requires Inv(m, g) && d < NFRAMES && g.own[d].Dir? && v < UPAGES
    ensures Present(Pte(m.tabs, d, v)) ==>
      var w := Seen(m, g, d, v);
      w.Mapped? && (UserMay(m.tabs, d, v, write) <==> User(w.perm) && (write ==> Writable(w.perm)))
    ensures !Present(Pte(m.tabs, d, v)) ==> !UserMay(m.tabs, d, v, write)
  {
    assert PdeOk(m.tabs, g.own, d, v / NENTRIES) && PageOk(m.tabs, g.own, d, v);
    PermBits(Pte(m.tabs, d, v));
    hide Perm, FreeOk, TabsOk, PagesOk, SlotsOk;
  }

  // What an operation leaves alone. A hole is a range of pages of one directory.

  datatype Hole = Hole(d: nat, lo: nat, hi: nat) {
    predicate Has(d': nat, v: nat) { d' == d && lo <= v < hi }
    predicate Whole() { lo == 0 && hi == VPAGES }
  }

  const NOWHERE := Hole(0, 0, 0)

  /** Frame f keeps its owner, unless it is the one frame x or part of a directory being made or destroyed. */
  ghost predicate OwnerKept(g: G, g': G, h: Hole, x: nat, f: nat)
    requires |g.own| == |g'.own| == NFRAMES && f < NFRAMES
  {
    var o, o' := g.own[f], g'.own[f];
    && (o.Reserved? ==> o' == o)
    && (o.Taken? && f != x ==> o' == o)
    && (o.Dir? && !(h.Whole() && h.d == f) ==> o' == o)
    && (o.Table? && !(h.Whole() && h.d == o.d) ==> o' == o)
    && (o'.Dir? && !(h.Whole() && h.d == f) ==> o == o')
  }

  /** Page v of directory d: kernel entries are the same, user pages look the same. */
  ghost predicate PageKept(m: M, g: G, m': M, g': G, d: nat, v: nat)
    requires Shaped(m, g) && Shaped(m', g') && d < NFRAMES && v < VPAGES
  {
    if v < UPAGES then g.own[d] == Dir(true) ==> Seen(m', g', d, v) == Seen(m, g, d, v)
    else Pte(m'.tabs, d, v) == Pte(m.tabs, d, v)
  }

  ghost predicate PdeKept(m: M, g: G, m': M, g': G, d: nat, i: nat)
    requires Shaped(m, g) && Shaped(m', g') && d < NFRAMES && i < NENTRIES
  {
    Present(Pde(m.tabs, d, i)) ==> Pde(m'.tabs, d, i) == Pde(m.tabs, d, i)
  }

  /** Outside the hole no owner, table, kernel entry, live page or held frame changes. */
  ghost predicate Quiet(m: M, g: G, m': M, g': G, h: Hole, x: nat) {
    && Shaped(m, g) && Shaped(m', g')
    && (forall f :: 0 <= f < NFRAMES ==> OwnerKept(g, g', h, x, f))
    && (forall f :: 0 <= f < NFRAMES && g.own[f].Taken? && f != x ==> m'.data[f] == m.data[f])
    && (forall d, i :: 0 <= d < NFRAMES && g.own[d].Dir? && !(h.Whole() && h.d == d) && 0 <= i < NENTRIES ==>
          PdeKept(m, g, m', g', d, i))
    && (forall d, v :: 0 <= d < NFRAMES && g.own[d].Dir? && 0 <= v < VPAGES && !h.Has(d, v) ==>
         PageKept(m, g, m', g', d, v))
    && |m'.procs| == |m.procs| && m'.end == m.end
    && forall p :: 0 <= p < |m.procs| ==> m'.procs[p] == m.procs[p].(rss := m'.procs[p].rss)
  }

  lemma QuietTrans(a: M, ga: G, b: M, gb: G, c: M, gc: G, h: Hole, x: nat, y: nat)
    requires Quiet(a, ga, b, gb, h, x) && Quiet(b, gb, c, gc, h, y)
    requires y == x || y >= NFRAMES || !ga.own[y].Taken?
    ensures Quiet(a, ga, c, gc, h, x)
  {
    forall f | 0 <= f < NFRAMES ensures OwnerKept(ga, gc, h, x, f) {
      assert OwnerKept(ga, gb, h, x, f) && OwnerKept(gb, gc, h, y, f);
    }
    forall f | 0 <= f < NFRAMES && ga.own[f].Taken? && f != x ensures c.data[f] == a.data[f] {
      assert OwnerKept(ga, gb, h, x, f);
    }
    forall d, i | 0 <= d < NFRAMES && ga.own[d].Dir? && !(h.Whole() && h.d == d) && 0 <= i < NENTRIES
      ensures PdeKept(a, ga, c, gc, d, i)
    {
      assert OwnerKept(ga, gb, h, x, d);
      assert PdeKept(a, ga, b, gb, d, i) && PdeKept(b, gb, c, gc, d, i);
    }
    forall d, v | 0 <= d < NFRAMES && ga.own[d].Dir? && 0 <= v < VPAGES && !h.Has(d, v)
      ensures PageKept(a, ga, c, gc, d, v)
    {
      assert OwnerKept(ga, gb, h, x, d);
      assert PageKept(a, ga, b, gb, d, v) && PageKept(b, gb, c, gc, d, v);
    }
  }

  /** An entry only moves from present to swapped out, and then to a slot that was free. */
  ghost predicate Shrinks(e: nat, e': nat, slots: seq<Slot>)
    requires |slots| == NSLOTS
  {
    if Present(e') then Present(e) && FrameOf(e') == FrameOf(e) && Perm(e') == Perm(e)
    else if Present(e) then e' != 0 && FrameOf(e') < NSLOTS && slots[FrameOf(e')].isFree
    else e' == e
  }

  ghost predicate SlotKept(m: M, g: G, m': M, g': G, s: nat)
    requires Shaped(m, g) && Shaped(m', g') && s < NSLOTS
  {
    m'.slots[s] == m.slots[s] && g'.sown[s] == g.sown[s] && SlotPage(m'.disk, s) == SlotPage(m.disk, s)
  }

  /** User entries only shrink and slots in use keep their contents. */
  ghost predicate Evicts(m: M, g: G, m': M, g': G) {
    && Shaped(m, g) && Shaped(m', g')
    && (forall d, v :: 0 <= d < NFRAMES && g.own[d].Dir? && 0 <= v < UPAGES ==>
         Shrinks(Pte(m.tabs, d, v), Pte(m'.tabs, d, v), m.slots))
    && (forall s :: 0 <= s < NSLOTS && !m.slots[s].isFree ==> SlotKept(m, g, m', g', s))
  }

  lemma EvictsTrans(a: M, ga: G, b: M, gb: G, c: M, gc: G)
    requires Evicts(a, ga, b, gb) && Evicts(b, gb, c, gc)
    requires forall d :: 0 <= d < NFRAMES && ga.own[d].Dir? ==> gb.own[d].Dir?
    ensures Evicts(a, ga, c, gc)
  {
    forall d, v | 0 <= d < NFRAMES && ga.own[d].Dir? && 0 <= v < UPAGES
      ensures Shrinks(Pte(a.tabs, d, v), Pte(c.tabs, d, v), a.slots)
    {
      assert Shrinks(Pte(a.tabs, d, v), Pte(b.tabs, d, v), a.slots);
      assert Shrinks(Pte(b.tabs, d, v), Pte(c.tabs, d, v), b.slots);
      var s := FrameOf(Pte(c.tabs, d, v));
      assert s < NSLOTS && !a.slots[s].isFree ==> SlotKept(a, ga, b, gb, s);
    }
    forall s | 0 <= s < NSLOTS && !a.slots[s].isFree ensures SlotKept(a, ga, c, gc, s) {
      assert SlotKept(a, ga, b, gb, s) && SlotKept(b, gb, c, gc, s);
    }
  }
}
