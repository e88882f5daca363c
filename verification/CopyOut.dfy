/** Copying bytes into a process's memory (copyout in vm.c). */
module CopyOut {
  import opened Paging
  import opened PageSteps
  import opened Victims
  import opened PageSwap
  import opened VmSteps
  import opened Vm
  import opened UserMem

  /** Page v after the bytes s were written at address va. */
  function Patched(w: View, v: nat, va: nat, s: seq<nat>): View {
    if w.Mapped?
    then Mapped(seq(|w.bytes|, i requires 0 <= i < |w.bytes| =>
           if va <= v * PGSIZE + i < va + |s| then s[v * PGSIZE + i - va] else w.bytes[i]), w.perm)
    else w
  }

  /** The user pages of d hold what they held at (m0, g0), patched with s at va; other directories look the same. */
  ghost predicate Written(m0: M, g0: G, m: M, g: G, d: nat, va: nat, s: seq<nat>) {
    && Inv(m, g) && Shaped(m0, g0) && d < NFRAMES && g0.own[d] == Dir(true) && g.own[d] == Dir(true) && NoneTaken(g0, g)
    && Quiet(m0, g0, m, g, Hole(d, 0, UPAGES), NFRAMES)
    && forall v :: 0 <= v < UPAGES ==> Seen(m, g, d, v) == Patched(Seen(m0, g0, d, v), v, va, s)
  }

  lemma SeenSize(m: M, g: G, d: nat, v: nat)
    requires Shaped(m, g) && d < NFRAMES && v < UPAGES
    ensures Seen(m, g, d, v).Mapped? ==> |Seen(m, g, d, v).bytes| == PGSIZE
  {
  }

  lemma WrittenQuiet(m0: M, g0: G, m1: M, g1: G, m2: M, g2: G, d: nat, va: nat, s: seq<nat>)
    requires Written(m0, g0, m1, g1, d, va, s) && Inv(m2, g2) && Quiet(m1, g1, m2, g2, NOWHERE, NFRAMES)
    requires NoneTaken(g1, g2)
    ensures Written(m0, g0, m2, g2, d, va, s)
  {
    hide FreeOk, TabsOk, PagesOk, SlotsOk, ProcsOk, Seen, PdeKept, Pte, Patched;
    assert OwnerKept(g1, g2, NOWHERE, NFRAMES, d);
    QuietAny(m1, g1, m2, g2, Hole(d, 0, UPAGES), NFRAMES, NFRAMES);
    QuietTrans(m0, g0, m1, g1, m2, g2, Hole(d, 0, UPAGES), NFRAMES, NFRAMES);
    forall v | 0 <= v < UPAGES ensures Seen(m2, g2, d, v) == Seen(m1, g1, d, v) {
      assert PageKept(m1, g1, m2, g2, d, v);
    }
    hide Quiet;
  }

  // A store into a present page.

  lemma PageEntry(m: M, g: G, d: nat, v: nat, page: seq<nat>)
    requires Inv(m, g) && d < NFRAMES && g.own[d].Dir? && v < UPAGES && Present(Pte(m.tabs, d, v)) && |page| == PGSIZE
    ensures FrameOf(Pte(m.tabs, d, v)) < NFRAMES && g.own[FrameOf(Pte(m.tabs, d, v))] == Page(d, v)
    ensures EntrySet(m, g, m.(data := m.data[FrameOf(Pte(m.tabs, d, v)) := page]), g, d, v, Pte(m.tabs, d, v))
  {
    PageFrame(m, g, d, v);
    var f := FrameOf(Pte(m.tabs, d, v));
    hide Pte, TabsOk, PagesOk, SlotsOk, ProcsOk, Junk, Addr, Below;
    forall x | 0 <= x < NFRAMES && g.own[x].Free? ensures FreeFrame(m.data[f := page], m.link, g.free, x, g.own[x].k) {
      assert FreeFrame(m.data, m.link, g.free, x, g.own[x].k);
    }
  }

  lemma PageStored(m: M, g: G, m': M, d: nat, v: nat, page: seq<nat>)
    requires Inv(m, g) && d < NFRAMES && g.own[d].Dir? && v < UPAGES && Present(Pte(m.tabs, d, v)) && |page| == PGSIZE
    requires FrameOf(Pte(m.tabs, d, v)) < NFRAMES && m' == m.(data := m.data[FrameOf(Pte(m.tabs, d, v)) := page])
    ensures Inv(m', g) && Quiet(m, g, m', g, Hole(d, v, v + 1), NFRAMES)
    ensures Seen(m, g, d, v).Mapped? && Seen(m', g, d, v) == Mapped(page, Seen(m, g, d, v).perm)
  {
    PageEntry(m, g, d, v, page);
    assert m'.tabs == m.tabs;
    hide FreeOk, TabsOk, PagesOk, SlotsOk, ProcsOk, Quiet, Perm, SlotPage;
    EntrySetQuiet(m, g, m', g, d, v, Pte(m.tabs, d, v), NFRAMES);
    hide Pte;
  }

  function Splice(page: seq<nat>, off: nat, s: seq<nat>): (r: seq<nat>)
    requires off + |s| <= |page|
    ensures |r| == |page|
  {
    page[..off] + s + page[off + |s|..]
  }

  lemma SplicePatch(w: View, v: nat, va: nat, s: seq<nat>, t: seq<nat>, off: nat)
    requires w.Mapped? && |w.bytes| == PGSIZE && va + |s| == v * PGSIZE + off && off + |t| <= PGSIZE
    ensures Patched(w, v, va, s + t) == Mapped(Splice(Patched(w, v, va, s).bytes, off, t), w.perm)
  {
    var p, q := Patched(w, v, va, s + t).bytes, Splice(Patched(w, v, va, s).bytes, off, t);
    forall i | 0 <= i < PGSIZE ensures p[i] == q[i] {
    }
    assert p == q;
  }

  lemma SpliceOther(w: View, u: nat, v: nat, va: nat, s: seq<nat>, t: seq<nat>, off: nat)
    requires (w.Mapped? ==> |w.bytes| == PGSIZE) && va + |s| == v * PGSIZE + off && off + |t| <= PGSIZE && u != v
    ensures Patched(w, u, va, s + t) == Patched(w, u, va, s)
  {
    if w.Mapped? {
      var p, q := Patched(w, u, va, s + t).bytes, Patched(w, u, va, s).bytes;
      forall i | 0 <= i < PGSIZE ensures p[i] == q[i] {
      }
      assert p == q;
    }
  }

  lemma WrittenNext(m0: M, g0: G, m1: M, g1: G, m2: M, d: nat, va: nat, s: seq<nat>, t: seq<nat>, v: nat, off: nat)
    requires Written(m0, g0, m1, g1, d, va, s) && v < UPAGES && va + |s| == v * PGSIZE + off && off + |t| <= PGSIZE
    requires Present(Pte(m1.tabs, d, v)) && FrameOf(Pte(m1.tabs, d, v)) < NFRAMES
    requires m2 == m1.(data := m1.data[FrameOf(Pte(m1.tabs, d, v)) := Splice(m1.data[FrameOf(Pte(m1.tabs, d, v))],
        off, t)])
    ensures Written(m0, g0, m2, g1, d, va, s + t)
  {
    var f := FrameOf(Pte(m1.tabs, d, v));
    var page := Splice(m1.data[f], off, t);
    assert Seen(m1, g1, d, v) == Mapped(m1.data[f], Perm(Pte(m1.tabs, d, v)));
    PageStored(m1, g1, m2, d, v, page);
    hide FreeOk, TabsOk, PagesOk, SlotsOk, ProcsOk, Seen, PdeKept, Pte, Patched, Splice, Perm;
    QuietWiden(m1, g1, m2, g1, Hole(d, v, v + 1), Hole(d, 0, UPAGES), NFRAMES);
    QuietTrans(m0, g0, m1, g1, m2, g1, Hole(d, 0, UPAGES), NFRAMES, NFRAMES);
    forall u | 0 <= u < UPAGES ensures Seen(m2, g1, d, u) == Patched(Seen(m0, g0, d, u), u, va, s + t) {
      SeenSize(m0, g0, d, u);
      if u == v {
        PatchedKind(Seen(m0, g0, d, v), v, va, s);
        SplicePatch(Seen(m0, g0, d, v), v, va, s, t, off);
      } else {
        assert PageKept(m1, g1, m2, g1, d, u);
        SpliceOther(Seen(m0, g0, d, u), u, v, va, s, t, off);
      }
    }
  }

  lemma PatchedKind(w: View, v: nat, va: nat, s: seq<nat>)
    ensures Patched(w, v, va, s).Mapped? == w.Mapped? && (w.Mapped? ==> Patched(w, v, va, s).perm == w.perm)
  {
  }

  /**
   * Page v of d cannot be written: no page table, a page without user access, an all-zero
   * entry while slot 0 is free, or no frame to bring the page in.
   */
  ghost predicate Barred(m: M, g: G, d: nat, v: nat) {
    && TabsShaped(m.tabs) && d < NFRAMES && v < UPAGES && |m.slots| == NSLOTS
    && (|| !HasTable(m.tabs, d, v / NENTRIES)
        || (Present(Pte(m.tabs, d, v)) && !User(Pte(m.tabs, d, v)))
        || Blank(m, d, v)
        || (g.free == [] && Stuck(m)))
  }

  ghost predicate AllTabled(m: M, d: nat, lo: nat, hi: nat) {
    TabsShaped(m.tabs) && d < NFRAMES && hi <= UPAGES && forall u :: lo <= u < hi ==> HasTable(m.tabs, d, u / NENTRIES)
  }

  ghost predicate AllPresent(m: M, d: nat, lo: nat, hi: nat) {
    TabsShaped(m.tabs) && d < NFRAMES && hi <= UPAGES && forall u :: lo <= u < hi ==> Present(Pte(m.tabs, d, u))
  }

  /** An all-zero entry that copyout gets to finds slot 0 free: nothing before it can take the slot. */
  ghost predicate ZerosSafe(m: M, d: nat, lo: nat, hi: nat) {
    && TabsShaped(m.tabs) && d < NFRAMES && hi <= UPAGES && |m.slots| == NSLOTS
    && forall v :: lo <= v < hi && Pte(m.tabs, d, v) == 0 && AllTabled(m, d, lo, v + 1) ==>
         m.slots[0].isFree && AllPresent(m, d, lo, v)
  }

  /** Pages lo to v were passed: all have tables, and if all were present nothing has moved. */
  ghost predicate Passed(m0: M, m: M, d: nat, lo: nat, v: nat) {
    AllTabled(m0, d, lo, v) && (AllPresent(m0, d, lo, v) ==> m.tabs == m0.tabs && m.slots == m0.slots)
  }

  lemma ZeroSafe(m0: M, m: M, d: nat, lo: nat, v: nat, hi: nat)
    requires ZerosSafe(m0, d, lo, hi) && lo <= v < hi && Passed(m0, m, d, lo, v) && TabsShaped(m.tabs)
    requires m.tabs[d] == m0.tabs[d]
    requires Pte(m0.tabs, d, v) != 0 ==> Pte(m.tabs, d, v) != 0
    ensures !Misread(m, d, v)
  {
    hide Pte;
    if HasTable(m.tabs, d, v / NENTRIES) && Pte(m.tabs, d, v) == 0 {
      assert AllTabled(m0, d, lo, v + 1);
    }
  }

  /** Page v was reached in m1, which became m2, and its frame was written. */
  lemma PassedNext(m0: M, m1: M, m2: M, m3: M, d: nat, lo: nat, v: nat)
    requires Passed(m0, m1, d, lo, v) && lo <= v < UPAGES && TabsShaped(m1.tabs) && TabsShaped(m2.tabs)
    requires m2.tabs[d] == m0.tabs[d]
    requires Present(Pte(m2.tabs, d, v)) && User(Pte(m2.tabs, d, v)) && m3 == m2.(data := m3.data)
    requires Present(Pte(m1.tabs, d, v)) ==> m2 == m1
    ensures Passed(m0, m3, d, lo, v + 1)
  {
    PteHas(m2.tabs, d, v);
    assert HasTable(m0.tabs, d, v / NENTRIES);
    hide Pte, User;
    if AllPresent(m0, d, lo, v + 1) {
      assert AllPresent(m0, d, lo, v) && Present(Pte(m0.tabs, d, v));
    }
  }

  /**
   * Copied is 0 and Failed is -1. Astray is the point where swappage_in is about to take an
   * all-zero entry for slot 0, which is in use; UserMem.SwapIn says what it does then.
   */
  datatype Outcome = Copied | Failed | Astray

  /** The entry of page v is all zero and slot 0, which swappage_in takes it for, is in use. */
  predicate Misread(m: M, d: nat, v: nat) {
    && TabsShaped(m.tabs) && d < NFRAMES && v < UPAGES && |m.slots| == NSLOTS
    && HasTable(m.tabs, d, v / NENTRIES) && Pte(m.tabs, d, v) == 0 && !m.slots[0].isFree
  }

  /**
   * copyout: exactly the bytes of buf land at va, whether the pages are in memory or
   * swapped out; on failure exactly a prefix that ends at a page boundary. It goes astray only
   * at an all-zero entry, and never if the zeros are safe.
   */
  method CopyOut(k: Machine, d: nat, va: nat, buf: seq<nat>, cur: int) returns (r: Outcome, ghost done: nat)
    requires k.Valid() && d < NFRAMES && k.g.own[d] == Dir(true) && va + |buf| <= KERNBASE
    requires cur < |k.m.procs| && (cur >= 0 ==> k.m.procs[cur].state == Ready)
    modifies k
    ensures done <= |buf| && Written(old(k.m), old(k.g), k.m, k.g, d, va, buf[..done])
    ensures r.Copied? <==> done == |buf|
    ensures !r.Copied? ==> done == 0 || (va + done) % PGSIZE == 0
    ensures r.Failed? ==> Barred(k.m, k.g, d, (va + done) / PGSIZE)
    ensures r.Astray? ==> Misread(k.m, d, (va + done) / PGSIZE) && Pte(old(k.m).tabs, d, (va + done) / PGSIZE) == 0
    ensures ZerosSafe(old(k.m), d, va / PGSIZE, Pages(va + |buf|)) ==> !r.Astray?
  {
    hide Inv, Written, Pte, Seen, Quiet, FreeOk, Splice, Barred, Passed, ZerosSafe, HasTable, Misread;
    ghost var m0, g0 := k.m, k.g;
    Shapes(m0, g0);
    WrittenStart(m0, g0, d, va);
    ghost var lo, hi := va / PGSIZE, Pages(va + |buf|);
    PassedNone(m0, d, lo);
    var i := 0;
    done := 0;
    assert buf[..0] == [];
    while i < |buf|
      invariant 0 <= i <= |buf| && done == i && Written(m0, g0, k.m, k.g, d, va, buf[..i])
      invariant TabsShaped(k.m.tabs) && k.m.tabs[d] == m0.tabs[d]
      invariant i == 0 || i == |buf| || (va + i) % PGSIZE == 0
      invariant i < |buf| ==> Passed(m0, k.m, d, lo, (va + i) / PGSIZE)
    {
      var v, off := (va + i) / PGSIZE, (va + i) % PGSIZE;
      assert va / PGSIZE <= v < Pages(va + |buf|) <= UPAGES;
      WrittenFacts(m0, g0, k.m, k.g, d, va, buf[..i], v, cur);
      if ZerosSafe(m0, d, lo, hi) {
        ZeroSafe(m0, k.m, d, lo, v, hi);
      }
      ghost var before := k.m;
      var ok := Reach(k, d, v, cur, m0, g0, va, buf[..i]);
      if !ok.Copied? { return ok, i; }
      var n := if PGSIZE - off < |buf| - i then PGSIZE - off else |buf| - i;
      var f := FrameOf(Pte(k.m.tabs, d, v));
      ghost var m1 := k.m;
      var chunk := buf[i..i + n];
      k.m := k.m.(data := k.m.data[f := Splice(k.m.data[f], off, chunk)]);
      WrittenNext(m0, g0, m1, k.g, k.m, d, va, buf[..i], chunk, v, off);
      PassedNext(m0, before, m1, k.m, d, lo, v);
      assert i + n < |buf| ==> (va + i + n) / PGSIZE == v + 1;
      assert buf[..i] + chunk == buf[..i + n];
      i := i + n;
      done := i;
    }
    assert buf[..done] == buf;
    return Copied, done;
  }

  lemma PassedNone(m: M, d: nat, lo: nat)
    requires TabsShaped(m.tabs) && d < NFRAMES && lo <= UPAGES
    ensures Passed(m, m, d, lo, lo)
  {
  }

  lemma WrittenStart(m: M, g: G, d: nat, va: nat)
    requires Inv(m, g) && d < NFRAMES && g.own[d] == Dir(true)
    ensures Written(m, g, m, g, d, va, [])
  {
    hide FreeOk, TabsOk, PagesOk, SlotsOk, ProcsOk, Quiet, Seen, Pte;
    QuietRefl(m, g, Hole(d, 0, UPAGES));
    forall v | 0 <= v < UPAGES ensures Seen(m, g, d, v) == Patched(Seen(m, g, d, v), v, va, []) {
      PatchedNone(Seen(m, g, d, v), v, va);
    }
  }

  lemma PatchedNone(w: View, v: nat, va: nat)
    ensures Patched(w, v, va, []) == w
  {
    if w.Mapped? {
      assert Patched(w, v, va, []).bytes == w.bytes;
    }
  }

  lemma WrittenFacts(m0: M, g0: G, m: M, g: G, d: nat, va: nat, s: seq<nat>, v: nat, cur: int)
    requires Inv(m0, g0) && Written(m0, g0, m, g, d, va, s) && v < UPAGES
    ensures Inv(m, g) && Shaped(m, g) && g.own[d] == Dir(true)
    ensures |m.procs| == |m0.procs| && (0 <= cur < |m.procs| ==> m.procs[cur].state == m0.procs[cur].state)
    ensures Pte(m0.tabs, d, v) != 0 ==> Pte(m.tabs, d, v) != 0
  {
    hide FreeOk, TabsOk, PagesOk, SlotsOk, ProcsOk, Seen, Pte, PageKept, PdeKept, OwnerKept, Patched;
    UnmappedZero(m0, g0, d, v);
    UnmappedZero(m, g, d, v);
    PatchedKind(Seen(m0, g0, d, v), v, va, s);
  }

  /** uva2ka, with swap-in if the page is out. */
  method Reach(k: Machine, d: nat, v: nat, cur: int, ghost m0: M, ghost g0: G, ghost va: nat,
          ghost s: seq<nat>) returns (r: Outcome)
    requires Written(m0, g0, k.m, k.g, d, va, s) && v < UPAGES && Inv(k.m, k.g) && Shaped(k.m, k.g) && d < NFRAMES
    requires k.g.own[d] == Dir(true)
    requires cur < |k.m.procs| && (cur >= 0 ==> k.m.procs[cur].state == Ready)
    modifies k
    ensures Written(m0, g0, k.m, k.g, d, va, s) && TabsShaped(k.m.tabs) && k.m.tabs[d] == old(k.m).tabs[d]
    ensures |k.m.data| == NFRAMES
    ensures r.Copied? ==>
      Present(Pte(k.m.tabs, d, v)) && User(Pte(k.m.tabs, d, v)) && FrameOf(Pte(k.m.tabs, d, v)) < NFRAMES
    ensures r.Copied? ==> |k.m.data[FrameOf(Pte(k.m.tabs, d, v))]| == PGSIZE
    ensures Present(Pte(old(k.m).tabs, d, v)) ==> k.m == old(k.m) && (r.Copied? <==> User(Pte(old(k.m).tabs, d, v)))
    ensures r.Failed? ==> Barred(k.m, k.g, d, v)
    ensures r.Astray? <==> Misread(old(k.m), d, v)
    ensures r.Astray? ==> k.m == old(k.m) && k.g == old(k.g) && Pte(k.m.tabs, d, v) == 0
  {
    hide Inv, Written, Pte, Quiet, BackIn, NoneTaken, Stuck, CalmOff, Gives;
    ghost var m1, g1 := k.m, k.g;
    var e := Pte(k.m.tabs, d, v);
    if Present(e) && User(e) {
      PageApart(k.m, k.g, d, v);
      return Copied;
    }
    if !HasTable(k.m.tabs, d, v / NENTRIES) {
      AbsentZero(k.m.tabs, d, v);
      return Failed;
    }
    if Present(e) { return Failed; }
    if e == 0 && !k.m.slots[0].isFree { return Astray; }
    var back := SwapIn(k, d, v, cur);
    if back < 0 {
      Shapes(k.m, k.g);
      WrittenQuiet(m0, g0, m1, g1, k.m, k.g, d, va, s);
      return Failed;
    }
    BackReach(m1, g1, k.m, k.g, d, v);
    WrittenQuiet(m0, g0, m1, g1, k.m, k.g, d, va, s);
    PageApart(k.m, k.g, d, v);
    return if Present(Pte(k.m.tabs, d, v)) && User(Pte(k.m.tabs, d, v)) then Copied else Failed;
  }

  lemma BackReach(m: M, g: G, m': M, g': G, d: nat, v: nat)
    requires BackIn(m, g, m', g', d, v) && Inv(m, g) && g.own[d] == Dir(true)
    ensures Inv(m', g') && Shaped(m', g') && Quiet(m, g, m', g', NOWHERE, NFRAMES) && NoneTaken(g, g')
    ensures g'.own[d] == Dir(true)
    ensures Present(Pte(m'.tabs, d, v))
  {
  }
}
