/** malloc, free and morecore (umalloc.c) as they run: searches around the circular list
    from freep, and stores to the headers. */
module Malloc {
  import opened Umalloc

  datatype Option<T> = None | Some(value: T)

  const HEADER := 8                    // sizeof(Header)
  const UINT := 0x1_0000_0000
  const MINUNITS := 4096
  /** The largest request whose size computations do not wrap (RequestExact). */
  const MAXBYTES := 0x7fff_fff0

  /** malloc: units for nbytes, computed in 32-bit unsigned arithmetic. */
  function NUnits(nbytes: int): (n: int)
    requires 0 <= nbytes < UINT
  {
    (nbytes + HEADER - 1) % UINT / HEADER + 1
  }

  /** morecore: what sbrk receives, a 32-bit product read as a signed int. */
  function SbrkArg(nunits: int): (n: int)
  {
    var bytes := (if nunits < MINUNITS then MINUNITS else nunits) * HEADER % UINT;
    if bytes < UINT / 2 then bytes else bytes - UINT
  }

  /** Units really needed: the payload rounded up, and a header. */
  function Needed(nbytes: int): (n: int)
    requires 0 <= nbytes
  {
    (nbytes + HEADER - 1) / HEADER + 1
  }

  /** The block malloc looks for holds nbytes exactly when nbytes + 7 does not wrap. */
  lemma UnitsSufficeIff(nbytes: int)
    requires 0 <= nbytes < UINT
    ensures (NUnits(nbytes) - 1) * HEADER >= nbytes <==> nbytes <= UINT - HEADER
  {
    if nbytes <= UINT - HEADER {
      assert nbytes + HEADER - 1 < UINT;
    } else {
      assert (nbytes + HEADER - 1) % UINT == nbytes + HEADER - 1 - UINT;
    }
  }

  /** A request whose rounding wraps settles for one unit: a header and no payload. */
  lemma HugeRequestGetsNothing(nbytes: int)
    requires UINT - HEADER < nbytes < UINT
    ensures NUnits(nbytes) == 1
  {
    assert (nbytes + HEADER - 1) % UINT == nbytes + HEADER - 1 - UINT;
  }

  /** sbrk is asked for the memory that morecore then records. */
  predicate Honest(nunits: int) {
    SbrkArg(nunits) == (if nunits < MINUNITS then MINUNITS else nunits) * HEADER
  }

  lemma HonestIff(nbytes: int)
    requires 0 <= nbytes < UINT
    ensures Honest(NUnits(nbytes)) <==> nbytes <= MAXBYTES || nbytes > UINT - HEADER
  {
    if nbytes > UINT - HEADER {
      HugeRequestGetsNothing(nbytes);
    } else {
      assert nbytes + HEADER - 1 < UINT;
      assert NUnits(nbytes) * HEADER < UINT / 2 <==> nbytes <= MAXBYTES;
    }
  }

  /** Otherwise morecore records at least 0x1_0000_0000 bytes more than sbrk was asked for. */
  lemma HonestOrShort(nunits: int)
    requires 1 <= nunits
    ensures var bytes := (if nunits < MINUNITS then MINUNITS else nunits) * HEADER;
      bytes - SbrkArg(nunits) == 0 || bytes - SbrkArg(nunits) >= UINT
  {
    var bytes := (if nunits < MINUNITS then MINUNITS else nunits) * HEADER;
    assert bytes == bytes / UINT * UINT + bytes % UINT;
    assert bytes >= UINT ==> bytes / UINT >= 1;
  }

  /** sbrk is asked for the memory that the request needs exactly up to MAXBYTES; beyond it
      the signed argument is negative, zero, or the minimum for a wrapped unit count. */
  lemma RequestExact(nbytes: int)
    requires 0 <= nbytes < UINT
    ensures (NUnits(nbytes) == Needed(nbytes)
             && SbrkArg(NUnits(nbytes)) == (if Needed(nbytes) < MINUNITS then MINUNITS else Needed(nbytes)) * HEADER)
            <==> nbytes <= MAXBYTES
  {
    if nbytes <= UINT - HEADER {
      assert NUnits(nbytes) == Needed(nbytes);
      if nbytes <= MAXBYTES {
        assert Needed(nbytes) * HEADER < UINT / 2;
      } else {
        assert Needed(nbytes) * HEADER >= UINT / 2;
      }
    } else {
      assert (nbytes + HEADER - 1) % UINT == nbytes + HEADER - 1 - UINT;
    }
  }

  lemma AtLeastOne(nbytes: int)
    requires 0 <= nbytes < UINT
    ensures NUnits(nbytes) >= 1
  {
  }

  /** Units that morecore has added after the given number of calls. */
  function Obtained(nunits: int, calls: nat, sbrk: Option<int>): (n: int) {
    if calls == 0 || sbrk.None? then 0 else if nunits < MINUNITS then MINUNITS else nunits
  }

  lemma DistStep(i: nat, j: nat, n: nat)
    requires i < n && j < n && i != j
    ensures Dist(Succ(i, n), j, n) == Dist(i, j, n) - 1
  {
  }

  /** A turn that started behind f and has come to k has passed j. */
  predicate Passed(f: nat, k: nat, j: int) {
    if k > f then f < j < k else j > f || j < k
  }

  /** Every block passed so far is too small. */
  ghost predicate TooSmall(fl: seq<Blk>, f: nat, k: nat, nunits: int) {
    forall j :: 0 <= j < |fl| && Passed(f, k, j) ==> fl[j].n < nunits
  }

  /** Block k of x is the first in list order behind position f that holds n units; the last n of them were handed out
      at r - 1 and the rest of the list is as it was. */
  ghost predicate CutFirst(x: Heap, f: nat, k: nat, n: int, h: Heap, r: int) {
    && f < |x.fl| && k < |x.fl| && x.fl[k].n >= n
    && (forall j :: 0 <= j < |x.fl| && Passed(f, k, j) ==> x.fl[j].n < n)
    && r - 1 == x.fl[k].a + x.fl[k].n - n
    && h.fl == x.fl[..k] + (if x.fl[k].n == n then [] else [Blk(x.fl[k].a, x.fl[k].n - n)]) + x.fl[k + 1..]
    && h.live == x.live + [Blk(r - 1, n)]
  }

  lemma IsCut(x: Heap, f: nat, k: nat, n: int, h: Heap, r: int)
    requires f < |x.fl| && k < |x.fl| && x.fl[k].n >= n && r - 1 == x.fl[k].a + x.fl[k].n - n
    requires forall j :: 0 <= j < |x.fl| && Passed(f, k, j) ==> x.fl[j].n < n
    requires h.fl == x.fl[..k] + (if x.fl[k].n == n then [] else [Blk(x.fl[k].a, x.fl[k].n - n)]) + x.fl[k + 1..]
    requires h.live == x.live + [Blk(r - 1, n)]
    ensures CutFirst(x, f, k, n, h, r)
  {
  }

  ghost predicate SomeFits(fl: seq<Blk>, n: int) { exists j :: 0 <= j < |fl| && fl[j].n >= n }

  lemma TooSmallStart(fl: seq<Blk>, f: nat, nunits: int)
    requires f < |fl|
    ensures TooSmall(fl, f, Succ(f, |fl|), nunits)
  {
  }

  lemma TooSmallEach(fl: seq<Blk>, f: nat, k: nat, nunits: int)
    requires TooSmall(fl, f, k, nunits)
    ensures forall j :: 0 <= j < |fl| && Passed(f, k, j) ==> fl[j].n < nunits
  {
  }

  lemma HeapList(h: Heap)
    requires HeapOk(h)
    ensures FreeList(h.base, h.fl) && Chain(h.m, h.fl, h.base)
  {
  }

  lemma TooSmallStep(fl: seq<Blk>, f: nat, k: nat, nunits: int)
    requires k < |fl| && f < |fl| && fl[k].n < nunits && TooSmall(fl, f, k, nunits)
    ensures k != f ==> TooSmall(fl, f, Succ(k, |fl|), nunits)
    ensures k == f ==> forall j :: 0 <= j < |fl| ==> fl[j].n < nunits
  {
    if k != f {
      forall j | 0 <= j < |fl| && Passed(f, Succ(k, |fl|), j) ensures fl[j].n < nunits {
        assert j == k || Passed(f, k, j);
      }
    } else {
      forall j | 0 <= j < |fl| ensures fl[j].n < nunits {
        assert j == k || Passed(f, k, j);
      }
    }
  }

  /** Addresses in the list are at least base. */
  lemma FirstPositive(h: Heap, t: nat)
    requires FreeList(h.base, h.fl) && t < |h.fl|
    ensures h.fl[t].a >= h.base
  {
    if t > 0 { assert h.fl[0].a + h.fl[0].n < h.fl[t].a; }
  }

  lemma FreedHolds(h: Heap, ix: nat, t: nat, a: int)
    requires HeapOk(h) && ix < |h.live| && t < |h.fl| && Writable(h.m, h.fl[t].a, h.live[ix].a)
    ensures Holds(Freed(h, ix, t).fl, a) <==> Holds(h.fl, a) || In(h.live[ix], a)
  {
    hide Holds;
    assert LiveOk(h, h.live[ix]);
    assert h.fl == h.fl[..t] + [h.fl[t]] + h.fl[t + 1..];
    assert forall i :: 0 <= i < |h.fl| ==> h.fl[i].n >= 0;
    InsertHolds(h.fl[..t], h.fl[t], h.fl[t + 1..], h.live[ix], a);
  }

  lemma TakenParts(h: Heap, k: nat, n: int)
    requires 1 <= k < |h.fl| && h.fl[k].a in h.m.size && h.fl[k].a in h.m.ptr
    ensures var r, x := Taken(h, k, n), h.fl[k];
      && r.fl == h.fl[..k] + (if x.n == n then [] else [Blk(x.a, x.n - n)]) + h.fl[k + 1..]
      && |r.fl| >= k && r.fl[k - 1] == h.fl[k - 1] && r.live == h.live + [Blk(x.a + x.n - n, n)]
      && r.m == Take(h.m, h.fl[k - 1].a, x.a, n)
      && r.base == h.base && r.top == h.top && r.obtained == h.obtained
  {
  }

  /** morecore's block, once freed, is in the list as a block of at least its size. */
  lemma GrownFreed(h: Heap, b: Blk, t: nat) returns (j: nat)
    requires HeapOk(Grown(h, b)) && b.n >= 1 && t < |h.fl| && Writable(Grown(h, b).m, h.fl[t].a, b.a)
    ensures var r := Freed(Grown(h, b), |h.live|, t);
      && r.live == h.live && r.obtained == h.obtained + b.n && r.base == h.base
      && j < |r.fl| && r.fl[j].n >= b.n
  {
    assert h.fl == h.fl[..t] + [h.fl[t]] + h.fl[t + 1..];
    Parts(h.base, h.fl[..t], h.fl[t], h.fl[t + 1..]);
    j := InsertHas(h.fl[..t], h.fl[t], h.fl[t + 1..], b);
  }

  /** free never loses units: some block of the new list is at least as big as b. */
  lemma InsertHas(lo: seq<Blk>, p: Blk, hi: seq<Blk>, b: Blk) returns (j: nat)
    requires p.n >= 0 && b.n >= 1 && Sized(hi, 1)
    ensures j < |Insert(lo, p, hi, b)| && Insert(lo, p, hi, b)[j].n >= b.n
  {
    j := if p.a + p.n == b.a then |lo| else |lo| + 1;
  }

  /** free's search test holds at position k of the list exactly when k is the slot t. */
  lemma SearchStop(h: Heap, b: Blk, t: nat, k: nat)
    requires FreeList(h.base, h.fl) && Fresh(h.base, h.fl, b) && k < |h.fl|
    requires t < |h.fl| && h.fl[t].a < b.a && (t + 1 < |h.fl| ==> b.a < h.fl[t + 1].a)
    ensures var p, q := h.fl[k].a, if k + 1 < |h.fl| then h.fl[k + 1].a else h.base;
      (b.a > p && b.a < q) || (p >= q && (b.a > p || b.a < q)) <==> k == t
  {
    if k < t { assert h.fl[k + 1].a <= h.fl[t].a; }
    if t < k { assert h.fl[t + 1].a <= h.fl[k].a; }
    if k + 1 < |h.fl| { assert h.fl[k].a < h.fl[k + 1].a; }
  }

  /** Positions are determined by addresses. */
  lemma SamePlace(base: int, fl: seq<Blk>, i: nat, j: nat)
    requires FreeList(base, fl) && i < |fl| && j < |fl| && fl[i].a == fl[j].a
    ensures i == j
  {
  }

  class Allocator {
    const base: int
    var m: Mem
    var freep: int                     // 0 before the first malloc
    ghost var h: Heap
    ghost var fi: nat                  // freep's position in h.fl
    ghost var given: int               // bytes that sbrk gave, less those it took back

    /** Bytes on the heap's books that sbrk did not give. */
    ghost function Short(): int
      reads this
    {
      h.obtained * HEADER - given
    }

    ghost predicate Valid()
      reads this
    {
      && 0 < base < h.top && h.base == base && h.m == m
      && if freep == 0 then h.fl == [] && h.live == [] && h.obtained == 0
         else HeapOk(h) && fi < |h.fl| && h.fl[fi].a == freep
    }

    /** The part of Valid() that a search needs. */
    ghost predicate Linked()
      reads this
    {
      FreeList(base, h.fl) && Chain(m, h.fl, base) && fi < |h.fl| && h.fl[fi].a == freep && freep != 0
    }

    /** A program that has not allocated yet; its break is at top, above its static data. */
    constructor (base: int, top: int)
      requires 0 < base < top
      ensures Valid() && h.live == [] && h.obtained == 0 && this.base == base && h.top == top && Short() == 0
    {
      this.base := base;
      m := Mem(map[], map[]);
      freep := 0;
      h := Heap(base, Mem(map[], map[]), [], [], top, 0);
      fi := 0;
      given := 0;
    }

    /** free's search for live block b: it stops at the block below b after less than one
        turn around the list. */
    method Search(ghost b: Blk, bp: int, ghost t: nat) returns (p: int)
      requires Linked() && h.base == base && bp == b.a && Fresh(base, h.fl, b)
      requires t < |h.fl| && h.fl[t].a < b.a && (t + 1 < |h.fl| ==> b.a < h.fl[t + 1].a)
      ensures p == h.fl[t].a
    {
      ghost var n: nat, k: nat := |h.fl|, fi;
      p := freep;
      ChainAt(m, h.fl, base, k);
      SearchStop(h, b, t, k);
      while !(bp > p && bp < m.ptr[p])
        invariant k < n && p == h.fl[k].a && p in m.ptr
        invariant m.ptr[p] == if k + 1 < n then h.fl[k + 1].a else base
        invariant (bp > p && bp < m.ptr[p]) || (p >= m.ptr[p] && (bp > p || bp < m.ptr[p])) <==> k == t
        decreases Dist(k, t, n)
      {
        if p >= m.ptr[p] && (bp > p || bp < m.ptr[p]) { break; }
        DistStep(k, t, n);
        p := m.ptr[p];
        k := Succ(k, n);
        ChainAt(m, h.fl, base, k);
        SearchStop(h, b, t, k);
      }
    }

    /** The body of free, for the header at bp of live block ix. */
    method Release(bp: int, ghost ix: nat) returns (ghost t: nat)
      requires Valid() && freep != 0 && ix < |h.live| && h.live[ix].a == bp
      modifies this
      ensures Valid() && freep != 0
      ensures t < |old(h).fl| && Writable(old(h).m, old(h).fl[t].a, bp) && h == Freed(old(h), ix, t)
      ensures freep == old(h).fl[t].a && fi == t && given == old(given)
    {
      assert LiveOk(h, h.live[ix]);
      t := Slot(base, h.fl, h.live[ix]);
      var p := Search(h.live[ix], bp, t);
      FreedOk(h, ix, t);
      FreedPlace(h, ix, t);
      FirstPositive(h, t);
      h := Freed(h, ix, t);
      fi := t;
      Splice(p, bp);
      freep := p;
    }

    /** The stores of free: join bp with the block above, then with p below. */
    method Splice(p: int, bp: int)
      requires Writable(m, p, bp)
      modifies this`m
      ensures m == LinkDown(LinkUp(old(m), p, bp), p, bp)
    {
      if bp + m.size[bp] == m.ptr[p] {
        m := Mem(m.ptr[bp := m.ptr[m.ptr[p]]], m.size[bp := m.size[bp] + m.size[m.ptr[p]]]);
      } else {
        m := m.(ptr := m.ptr[bp := m.ptr[p]]);
      }
      if p + m.size[p] == bp {
        m := Mem(m.ptr[p := m.ptr[bp]], m.size[p := m.size[p] + m.size[bp]]);
      } else {
        m := m.(ptr := m.ptr[p := bp]);
      }
    }

    /** free(ap), where ap is one past the header of live block ix. */
    method Free(ap: int, ghost ix: nat)
      requires Valid() && ix < |h.live| && h.live[ix].a == ap - 1
      modifies this
      ensures Valid()
      ensures h.live == old(h).live[..ix] + old(h).live[ix + 1..]
      ensures h.obtained == old(h).obtained && h.top == old(h).top && Short() == old(Short())
      ensures forall a :: Holds(h.fl, a) <==> Holds(old(h).fl, a) || In(old(h).live[ix], a)
    {
      hide Holds, HeapOk;
      ghost var t := Release(ap - 1, ix);
      forall a ensures Holds(h.fl, a) <==> Holds(old(h).fl, a) || In(old(h).live[ix], a) {
        FreedHolds(old(h), ix, t, a);
      }
    }

    /** morecore: sbrk fails, or returns the old break, which lies at or above every block. */
    method MoreCore(nunits: int, sbrk: Option<int>) returns (r: int, ghost j: nat)
      requires Valid() && freep != 0 && 1 <= nunits
      requires sbrk.Some? ==> sbrk.value >= h.top
      modifies this
      ensures Valid()
      ensures sbrk.None? ==> r == 0 && h == old(h) && freep == old(freep) && fi == old(fi) && given == old(given)
      ensures sbrk.Some? ==> given == old(given) + SbrkArg(nunits)
      ensures sbrk.Some? ==>
        && r == freep && freep != 0 && h.live == old(h).live
        && h.obtained == old(h).obtained + (if nunits < MINUNITS then MINUNITS else nunits)
        && j < |h.fl| && h.fl[j].n >= nunits
      ensures sbrk.Some? ==> forall a :: Holds(h.fl, a) <==>
        Holds(old(h).fl, a) || sbrk.value <= a < sbrk.value + (if nunits < MINUNITS then MINUNITS else nunits)
    {
      hide Holds;
      if sbrk.None? { return 0, 0; }
      var nu := if nunits < MINUNITS then MINUNITS else nunits;
      var hp := sbrk.value;
      ghost var b := Blk(hp, nu);
      ghost var h0 := h;
      GrownOk(h, b);
      h := Grown(h, b);
      given := given + SbrkArg(nunits);
      m := m.(size := m.size[hp := nu]);
      ghost var t := Release(hp, |h.live| - 1);
      r := freep;
      j := GrownFreed(h0, b, t);
      forall a ensures Holds(h.fl, a) <==> Holds(h0.fl, a) || In(b, a) {
        FreedHolds(Grown(h0, b), |h0.live|, t, a);
      }
    }

    /** The first statement of malloc: an empty list the first time. */
    method Start()
      requires Valid()
      modifies this
      ensures Valid() && freep != 0 && h.live == old(h).live && h.obtained == old(h).obtained && h.top == old(h).top
      ensures given == old(given)
      ensures old(freep) != 0 ==> h == old(h) && fi == old(fi)
      ensures old(freep) == 0 ==> old(h).fl == [] && h.fl == [Blk(base, 0)]
    {
      if freep == 0 {
        m := Mem(m.ptr[base := base], m.size[base := 0]);
        freep := base;
        h := Heap(base, m, [Blk(base, 0)], [], h.top, 0);
        fi := 0;
        ChainCons(m, Blk(base, 0), [], base);
        assert [Blk(base, 0)] + [] == [Blk(base, 0)];
      }
    }

    /** p->s.size and p->s.ptr at position k of the list. */
    method SizeAt(p: int, ghost k: nat) returns (n: int)
      requires Linked() && k < |h.fl| && p == h.fl[k].a
      ensures n == h.fl[k].n
    {
      ChainAt(m, h.fl, base, k);
      n := m.size[p];
    }
    method NextOf(p: int, ghost k: nat) returns (q: int)
      requires Linked() && k < |h.fl| && p == h.fl[k].a
      ensures q == h.fl[Succ(k, |h.fl|)].a
    {
      ChainAt(m, h.fl, base, k);
      q := m.ptr[p];
    }

    /** malloc.  The result is 0, or one past the header of a new live block of
        NUnits(nbytes) units, which hold nbytes exactly if the rounding did not wrap;
        morecore is called exactly if no free block holds that many, and at most once.  The
        block is the end of the first one behind freep that does; x is the list of that
        search, the one at the call unless there was none.  If morecore is called and sbrk
        succeeds, the heap has just what sbrk gave exactly up to MAXBYTES or when the rounding
        wraps; in between its books show at least 0x1_0000_0000 bytes too many. */
    method Malloc(nbytes: int, sbrk: Option<int>)
      returns (r: int, calls: nat, ghost x: Heap, ghost f: nat, ghost k: nat)
      requires Valid() && 0 <= nbytes < UINT
      requires sbrk.Some? ==> sbrk.value >= h.top
      modifies this
      ensures Valid() && calls <= 1
      ensures calls == 0 <==> SomeFits(old(h).fl, NUnits(nbytes))
      ensures r == 0 <==> calls == 1 && sbrk.None?
      ensures r != 0 ==> CutFirst(x, f, k, NUnits(nbytes), h, r) && x.live == old(h).live
      ensures r != 0 ==> 1 <= k <= |x.fl| && freep == x.fl[k - 1].a && fi == k - 1
      ensures calls == 0 ==> x.fl == old(h).fl && f == old(fi)
      ensures r != 0 ==> h.live == old(h).live + [Blk(r - 1, NUnits(nbytes))]
      ensures (NUnits(nbytes) - 1) * HEADER >= nbytes <==> nbytes <= UINT - HEADER
      ensures r == 0 ==> sbrk.None? && calls == 1 && h.live == old(h).live
      ensures h.obtained == old(h).obtained + Obtained(NUnits(nbytes), calls, sbrk)
      ensures Short() == old(Short()) <==> calls == 0 || sbrk.None? || nbytes <= MAXBYTES || nbytes > UINT - HEADER
      ensures Short() == old(Short()) || Short() >= old(Short()) + UINT
    {
      Start();
      UnitsSufficeIff(nbytes);
      HonestIff(nbytes);
      AtLeastOne(nbytes);
      HonestOrShort(NUnits(nbytes));
      hide NUnits, SbrkArg, CutFirst;
      r, calls, x, f, k := FirstFit(NUnits(nbytes), sbrk);
    }

    /** One turn of malloc's loop, from behind freep back to freep: the first block that is
        large enough, with the block before it, or none. */
    method Turn(nunits: int) returns (found: bool, prevp: int, p: int, ghost k: nat)
      requires Linked() && 1 <= nunits
      ensures k < |h.fl| && p == h.fl[k].a && (k >= 1 ==> prevp == h.fl[k - 1].a)
      ensures found ==> h.fl[k].n >= nunits && forall j :: 0 <= j < |h.fl| && Passed(fi, k, j) ==> h.fl[j].n < nunits
      ensures !found ==> p == freep && forall j :: 0 <= j < |h.fl| ==> h.fl[j].n < nunits
    {
      hide FreeList, Chain, TooSmall;
      prevp := freep;
      k := Succ(fi, |h.fl|);
      TooSmallStart(h.fl, fi, nunits);
      p := NextOf(prevp, fi);
      while true
        invariant k < |h.fl| && p == h.fl[k].a && (k >= 1 ==> prevp == h.fl[k - 1].a)
        invariant TooSmall(h.fl, fi, k, nunits)
        decreases Dist(k, fi, |h.fl|)
      {
        var size := SizeAt(p, k);
        if size >= nunits {
          TooSmallEach(h.fl, fi, k, nunits);
          return true, prevp, p, k;
        }
        TooSmallStep(h.fl, fi, k, nunits);
        if p == freep {
          SamePlace(base, h.fl, k, fi);
          return false, prevp, p, k;
        }
        DistStep(k, fi, |h.fl|);
        prevp := p;
        p := NextOf(p, k);
        k := Succ(k, |h.fl|);
      }
    }

    /** The loop of malloc: a turn that fails asks for more memory and starts over. */
    method FirstFit(nunits: int, sbrk: Option<int>) returns (r: int, calls: nat, ghost x: Heap, ghost f: nat,
            ghost at: nat)
      requires Valid() && freep != 0 && 1 <= nunits
      requires sbrk.Some? ==> sbrk.value >= h.top
      modifies this
      ensures Valid() && calls <= 1
      ensures calls == 0 <==> SomeFits(old(h).fl, nunits)
      ensures r == 0 <==> calls == 1 && sbrk.None?
      ensures r != 0 ==> CutFirst(x, f, at, nunits, h, r) && x.live == old(h).live
      ensures r != 0 ==> 1 <= at <= |x.fl| && freep == x.fl[at - 1].a && fi == at - 1
      ensures calls == 0 ==> x == old(h) && f == old(fi)
      ensures r != 0 ==> h.live == old(h).live + [Blk(r - 1, nunits)]
      ensures r == 0 ==> sbrk.None? && calls == 1 && h.live == old(h).live
      ensures h.obtained == old(h).obtained + Obtained(nunits, calls, sbrk)
      ensures given == old(given) + (if calls == 0 || sbrk.None? then 0 else SbrkArg(nunits))
    {
      hide HeapOk, FreeList, Chain, SbrkArg, CutFirst, Passed;
      calls, x, f, at := 0, h, fi, 0;
      ghost var j: nat := 0;
      while true
        invariant Valid() && freep != 0 && calls <= 1
        invariant h.live == old(h).live && h.obtained == old(h).obtained + Obtained(nunits, calls, sbrk)
        invariant calls == 0 ==> h == old(h) && fi == old(fi)
        invariant calls == 1 ==> !SomeFits(old(h).fl, nunits)
        invariant given == old(given) + (if calls == 0 || sbrk.None? then 0 else SbrkArg(nunits))
        invariant calls == 1 ==> sbrk.Some? && j < |h.fl| && h.fl[j].n >= nunits
        decreases 1 - calls
      {
        var found, prevp, p;
        ghost var k;
        HeapList(h);
        found, prevp, p, k := Turn(nunits);
        x, f, at := h, fi, k;
        if found {
          r := Found(prevp, p, nunits, k);
          IsCut(x, f, at, nunits, h, r);
          return;
        }
        p, j := MoreCore(nunits, sbrk);
        calls := calls + 1;
        if p == 0 { return 0, calls, x, f, at; }
      }
    }

    /** Block p, behind prevp, is large enough. */
    method Found(prevp: int, p0: int, nunits: int, ghost k: nat) returns (r: int)
      requires Valid() && freep != 0 && 1 <= nunits
      requires k < |h.fl| && p0 == h.fl[k].a && h.fl[k].n >= nunits && (k >= 1 ==> prevp == h.fl[k - 1].a)
      modifies this
      ensures Valid() && k >= 1 && freep == old(h).fl[k - 1].a && fi == k - 1
      ensures h.live == old(h).live + [Blk(r - 1, nunits)] && r != 0
      ensures h.obtained == old(h).obtained && given == old(given)
      ensures r - 1 == old(h).fl[k].a + old(h).fl[k].n - nunits
      ensures h.fl == old(h).fl[..k] + (if old(h).fl[k].n == nunits then []
                                        else [Blk(old(h).fl[k].a, old(h).fl[k].n - nunits)]) + old(h).fl[k + 1..]
    {
      HeapList(h);
      assert h.fl[0].n == 0;
      FirstPositive(h, k);
      hide HeapOk, FreeList, Chain, Taken;
      TakenOk(h, k, nunits);
      TakenParts(h, k, nunits);
      h := Taken(h, k, nunits);
      fi := k - 1;
      var p := p0;
      if m.size[p] == nunits {
        m := m.(ptr := m.ptr[prevp := m.ptr[p]]);
      } else {
        m := m.(size := m.size[p := m.size[p] - nunits]);
        p := p + m.size[p];
        m := m.(size := m.size[p := nunits]);
      }
      freep := prevp;
      r := p + 1;
    }
  }
}
