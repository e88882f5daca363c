/** The user-level allocator (umalloc.c).  Addresses count Header units; a header holds the
    address of the next free block and its own size in units. */
module Umalloc {

  /** A run of n units from address a, header included. */
  datatype Blk = Blk(a: int, n: int)

  predicate Apart(x: Blk, y: Blk) {
    x.a + x.n <= y.a || y.a + y.n <= x.a
  }

  /** In address order, disjoint, and never touching: a touching pair would be one block. */
  predicate Coalesced(fl: seq<Blk>) {
    forall i, j :: 0 <= i < j < |fl| ==> fl[i].a + fl[i].n < fl[j].a
  }

  /** The free list in address order: the empty block at base, then non-empty blocks. */
  predicate FreeList(base: int, fl: seq<Blk>) {
    && |fl| >= 1 && fl[0] == Blk(base, 0)
    && (forall i :: 1 <= i < |fl| ==> fl[i].n >= 1)
    && Coalesced(fl)
  }

  function Sum(bs: seq<Blk>): (s: int) {
    if bs == [] then 0 else bs[0].n + Sum(bs[1..])
  }

  lemma {:induction false} SumConcat(xs: seq<Blk>, ys: seq<Blk>)
    ensures Sum(xs + ys) == Sum(xs) + Sum(ys)
  {
    if xs == [] {
      assert xs + ys == ys;
    } else {
      assert (xs + ys)[1..] == xs[1..] + ys;
      SumConcat(xs[1..], ys);
    }
  }

  lemma SumAt(xs: seq<Blk>, i: nat)
    requires i < |xs|
    ensures Sum(xs) == Sum(xs[..i]) + xs[i].n + Sum(xs[i + 1..])
  {
    assert xs == xs[..i] + xs[i..];
    SumConcat(xs[..i], xs[i..]);
    assert xs[i..][1..] == xs[i + 1..];
  }

  /** The successor in the circular list, and the distance around it. */
  function Succ(i: nat, n: nat): (j: nat)
    requires i < n
    ensures j < n
  {
    if i + 1 == n then 0 else i + 1
  }
  function Dist(i: nat, j: nat, n: nat): (d: nat)
    requires i < n && j < n
    ensures d < n && (d == 0 <==> i == j)
  {
    if i <= j then j - i else n - i + j
  }

  /** free: b joined with the first block above it if they touch, then the rest above. */
  function Above(hi: seq<Blk>, b: Blk): (r: seq<Blk>)
    ensures |r| >= 1
  {
    if hi != [] && b.a + b.n == hi[0].a then [Blk(b.a, b.n + hi[0].n)] + hi[1..] else [b] + hi
  }

  /** free: p joined with the first block of up if they touch. */
  function Below(p: Blk, b: Blk, up: seq<Blk>): (r: seq<Blk>)
    requires up != []
    ensures |r| >= 1
  {
    if p.a + p.n == b.a then [Blk(p.a, p.n + up[0].n)] + up[1..] else [p] + up
  }

  /** free: the list lo + [p] + hi with b put behind p and joined with its neighbours. */
  function Insert(lo: seq<Blk>, p: Blk, hi: seq<Blk>, b: Blk): (r: seq<Blk>) {
    lo + Below(p, b, Above(hi, b))
  }

  predicate In(b: Blk, a: int) { b.a <= a < b.a + b.n }

  /** Some block of the list covers unit a. */
  predicate Holds(fl: seq<Blk>, a: int) { exists i :: 0 <= i < |fl| && In(fl[i], a) }

  lemma HoldsConcat(xs: seq<Blk>, ys: seq<Blk>, a: int)
    ensures Holds(xs + ys, a) <==> Holds(xs, a) || Holds(ys, a)
  {
    if Holds(xs, a) {
      var i :| 0 <= i < |xs| && In(xs[i], a);
      assert (xs + ys)[i] == xs[i];
    }
    if Holds(ys, a) {
      var i :| 0 <= i < |ys| && In(ys[i], a);
      assert (xs + ys)[|xs| + i] == ys[i];
    }
  }

  lemma HoldsOne(b: Blk, a: int)
    ensures Holds([b], a) <==> In(b, a)
  {
    assert [b][0] == b;
  }

  /** The list covers what it covered before and the block put in, and nothing else. */
  lemma InsertHolds(lo: seq<Blk>, p: Blk, hi: seq<Blk>, b: Blk, a: int)
    requires p.n >= 0 && b.n >= 0 && Sized(hi, 0)
    ensures Holds(Insert(lo, p, hi, b), a) <==> Holds(lo + [p] + hi, a) || In(b, a)
  {
    var up := Above(hi, b);
    hide Holds;
    assert Holds(up, a) <==> Holds(hi, a) || In(b, a) by {
      if hi != [] && b.a + b.n == hi[0].a {
        var c := Blk(b.a, b.n + hi[0].n);
        HoldsCons(c, hi[1..], a);
        HoldsCons(hi[0], hi[1..], a);
        assert [hi[0]] + hi[1..] == hi;
      } else {
        HoldsCons(b, hi, a);
      }
    }
    HoldsConcat(lo + [p], hi, a);
    HoldsConcat(lo, [p], a);
    HoldsOne(p, a);
    HoldsConcat(lo, Below(p, b, up), a);
    if p.a + p.n == b.a {
      HoldsCons(Blk(p.a, p.n + up[0].n), up[1..], a);
      HoldsCons(up[0], up[1..], a);
      assert [up[0]] + up[1..] == up;
    } else {
      HoldsCons(p, up, a);
    }
  }

  lemma HoldsCons(b: Blk, bs: seq<Blk>, a: int)
    ensures Holds([b] + bs, a) <==> In(b, a) || Holds(bs, a)
  {
    HoldsConcat([b], bs, a);
    HoldsOne(b, a);
  }

  /** b is allocated memory: apart from every free block, and above base. */
  predicate Fresh(base: int, fl: seq<Blk>, b: Blk) {
    b.a > base && b.n >= 1 && AllApart(fl, b)
  }

  predicate AllApart(bs: seq<Blk>, c: Blk) {
    forall i :: 0 <= i < |bs| ==> Apart(bs[i], c)
  }

  predicate Sized(bs: seq<Blk>, n: int) {
    forall i :: 0 <= i < |bs| ==> bs[i].n >= n
  }

  /** Everything in xs ends before x. */
  predicate EndsBefore(xs: seq<Blk>, x: int) {
    forall i :: 0 <= i < |xs| ==> xs[i].a + xs[i].n < x
  }

  lemma CoalescedCons(p: Blk, ys: seq<Blk>)
    requires Coalesced(ys) && Sized(ys, 0) && (ys != [] ==> p.a + p.n < ys[0].a)
    ensures Coalesced([p] + ys)
  {
  }

  lemma CoalescedConcat(xs: seq<Blk>, ys: seq<Blk>)
    requires Coalesced(xs) && Coalesced(ys) && Sized(ys, 0)
    requires ys != [] ==> EndsBefore(xs, ys[0].a)
    ensures Coalesced(xs + ys)
  {
  }

  lemma CoalescedTail(ys: seq<Blk>)
    requires Coalesced(ys) && ys != []
    ensures Coalesced(ys[1..]) && (|ys| > 1 ==> ys[0].a + ys[0].n < ys[1].a)
  {
  }

  /** Joining b upwards keeps the part of the list from b on coalesced. */
  lemma AboveOk(hi: seq<Blk>, b: Blk)
    requires Coalesced(hi) && Sized(hi, 1) && b.n >= 1
    requires hi != [] ==> b.a + b.n <= hi[0].a
    ensures var up := Above(hi, b);
      Coalesced(up) && Sized(up, 1) && up[0].a == b.a && Sum(up) == b.n + Sum(hi)
  {
    hide Coalesced;
    if hi != [] && b.a + b.n == hi[0].a {
      CoalescedTail(hi);
      CoalescedCons(Blk(b.a, b.n + hi[0].n), hi[1..]);
    } else {
      CoalescedCons(b, hi);
    }
  }

  lemma BelowOk(p: Blk, b: Blk, up: seq<Blk>)
    requires Coalesced(up) && Sized(up, 1) && up != [] && up[0].a == b.a
    requires p.n >= 0 && p.a + p.n <= b.a
    ensures var r := Below(p, b, up);
      Coalesced(r) && r[0].a == p.a && r[0].n >= p.n && Sum(r) == p.n + Sum(up)
    ensures p.a + p.n < b.a ==> Below(p, b, up)[0] == p
    ensures forall i :: 1 <= i < |Below(p, b, up)| ==> Below(p, b, up)[i].n >= 1
  {
    hide Coalesced;
    if p.a + p.n == b.a {
      CoalescedTail(up);
      CoalescedCons(Blk(p.a, p.n + up[0].n), up[1..]);
    } else {
      CoalescedCons(p, up);
    }
  }

  /** free keeps the list in order, disjoint and coalesced, and adds exactly b's units. */
  lemma InsertOk(base: int, lo: seq<Blk>, p: Blk, hi: seq<Blk>, b: Blk)
    requires FreeList(base, lo + [p] + hi) && Fresh(base, lo + [p] + hi, b)
    requires p.a < b.a && (hi != [] ==> b.a < hi[0].a)
    ensures FreeList(base, Insert(lo, p, hi, b))
    ensures Sum(Insert(lo, p, hi, b)) == Sum(lo + [p] + hi) + b.n
  {
    hide Sum, Above, Below, Coalesced, FreeList, Apart, AllApart, Insert, Fresh;
    Neighbours(base, lo, p, hi, b);
    assert b.n >= 1 by {
      FreshSize(base, lo + [p] + hi, b);
    }
    AboveOk(hi, b);
    BelowOk(p, b, Above(hi, b));
    InsertList(base, lo, p, hi, b);
    InsertSum(lo, p, hi, b);
  }

  lemma FreshSize(base: int, fl: seq<Blk>, b: Blk)
    requires Fresh(base, fl, b)
    ensures b.n >= 1
  {
  }

  lemma InsertList(base: int, lo: seq<Blk>, p: Blk, hi: seq<Blk>, b: Blk)
    requires Coalesced(lo) && EndsBefore(lo, p.a) && p.n >= 0 && (forall i :: 1 <= i < |lo| ==> lo[i].n >= 1)
    requires (lo == [] ==> p == Blk(base, 0) && p.a + p.n < b.a) && (lo != [] ==> lo[0] == Blk(base, 0) && p.n >= 1)
    requires var r := Below(p, b, Above(hi, b));
      && r != [] && Coalesced(r) && r[0].a == p.a && r[0].n >= p.n && (p.a + p.n < b.a ==> r[0] == p)
      && forall i :: 1 <= i < |r| ==> r[i].n >= 1
    ensures FreeList(base, Insert(lo, p, hi, b))
  {
    hide Coalesced, Above, Below;
    var r := Below(p, b, Above(hi, b));
    CoalescedConcat(lo, r);
    if lo == [] { assert Insert(lo, p, hi, b) == r; }
  }

  lemma InsertSum(lo: seq<Blk>, p: Blk, hi: seq<Blk>, b: Blk)
    requires Sum(Below(p, b, Above(hi, b))) == p.n + b.n + Sum(hi)
    ensures Sum(Insert(lo, p, hi, b)) == Sum(lo + [p] + hi) + b.n
  {
    SumOne(p);
    hide Sum, Above, Below;
    SumConcat(lo, Below(p, b, Above(hi, b)));
    SumConcat(lo, [p]);
    SumConcat(lo + [p], hi);
  }

  lemma SumOne(p: Blk)
    ensures Sum([p]) == p.n
  {
  }

  /** The parts of a free list around one block. */
  lemma Parts(base: int, lo: seq<Blk>, p: Blk, hi: seq<Blk>)
    requires FreeList(base, lo + [p] + hi)
    ensures Coalesced(lo) && Coalesced(hi) && Sized(lo, 0) && Sized(hi, 1) && EndsBefore(lo, p.a)
    ensures forall i :: 0 <= i < |hi| ==> p.a + p.n < hi[i].a
    ensures hi != [] ==> EndsBefore(lo, hi[0].a)
    ensures lo == [] ==> p == Blk(base, 0)
    ensures lo != [] ==> lo[0] == Blk(base, 0) && p.n >= 1
    ensures forall i :: 1 <= i < |lo| ==> lo[i].n >= 1
  {
    PartsLo(base, lo, p, hi);
    PartsHi(base, lo, p, hi);
  }
  lemma PartsLo(base: int, lo: seq<Blk>, p: Blk, hi: seq<Blk>)
    requires FreeList(base, lo + [p] + hi)
    ensures Coalesced(lo) && EndsBefore(lo, p.a)
    ensures lo == [] ==> p == Blk(base, 0)
    ensures lo != [] ==> lo[0] == Blk(base, 0) && p.n >= 1
    ensures forall i :: 1 <= i < |lo| ==> lo[i].n >= 1
  {
    var fl := lo + [p] + hi;
    assert forall i :: 0 <= i < |lo| ==> lo[i] == fl[i];
    assert p == fl[|lo|];
  }
  lemma PartsHi(base: int, lo: seq<Blk>, p: Blk, hi: seq<Blk>)
    requires FreeList(base, lo + [p] + hi)
    ensures Coalesced(hi) && Sized(hi, 1)
    ensures forall i :: 0 <= i < |hi| ==> p.a + p.n < hi[i].a
  {
    var fl := lo + [p] + hi;
    assert p == fl[|lo|];
    assert forall i :: 0 <= i < |hi| ==> hi[i] == fl[|lo| + 1 + i];
  }

  /** Where b lies between the parts. */
  lemma Neighbours(base: int, lo: seq<Blk>, p: Blk, hi: seq<Blk>, b: Blk)
    requires FreeList(base, lo + [p] + hi) && Fresh(base, lo + [p] + hi, b)
    requires p.a < b.a && (hi != [] ==> b.a < hi[0].a)
    ensures Coalesced(lo) && Coalesced(hi) && Sized(hi, 1) && Sized(lo, 0) && EndsBefore(lo, p.a)
    ensures p.n >= 0 && p.a + p.n <= b.a && (hi != [] ==> b.a + b.n <= hi[0].a)
    ensures lo == [] ==> p == Blk(base, 0) && p.a + p.n < b.a
    ensures lo != [] ==> lo[0] == Blk(base, 0) && p.n >= 1
    ensures forall i :: 1 <= i < |lo| ==> lo[i].n >= 1
    ensures Apart(p, b) && AllApart(hi, b)
  {
    Parts(base, lo, p, hi);
    ApartParts(lo, p, hi, b);
    if hi != [] { assert Apart(hi[0], b); }
  }

  /** What is apart from b and from the free blocks stays apart from the new free blocks. */
  lemma InsertKeepsApart(base: int, lo: seq<Blk>, p: Blk, hi: seq<Blk>, b: Blk, c: Blk)
    requires FreeList(base, lo + [p] + hi) && Fresh(base, lo + [p] + hi, b)
    requires p.a < b.a && (hi != [] ==> b.a < hi[0].a)
    requires Fresh(base, lo + [p] + hi, c) && Apart(b, c)
    ensures Fresh(base, Insert(lo, p, hi, b), c)
  {
    ApartParts(lo, p, hi, c);
    Neighbours(base, lo, p, hi, b);
    AboveApart(hi, b, c);
    AboveOk(hi, b);
    BelowApart(p, b, Above(hi, b), c);
  }

  lemma ApartParts(lo: seq<Blk>, p: Blk, hi: seq<Blk>, c: Blk)
    requires AllApart(lo + [p] + hi, c)
    ensures AllApart(lo, c) && Apart(p, c) && AllApart(hi, c)
  {
    var fl := lo + [p] + hi;
    assert forall i :: 0 <= i < |lo| ==> lo[i] == fl[i];
    assert Apart(fl[|lo|], c);
    assert forall i :: 0 <= i < |hi| ==> hi[i] == fl[|lo| + 1 + i];
  }

  lemma AboveApart(hi: seq<Blk>, b: Blk, c: Blk)
    requires AllApart(hi, c) && Apart(b, c) && c.n >= 1 && b.n >= 1 && Sized(hi, 1)
    ensures AllApart(Above(hi, b), c)
  {
  }

  lemma BelowApart(p: Blk, b: Blk, up: seq<Blk>, c: Blk)
    requires up != [] && up[0].a == b.a && up[0].n >= 1
    requires Apart(p, c) && AllApart(up, c) && c.n >= 1 && p.n >= 0
    ensures AllApart(Below(p, b, up), c)
  {
  }

  // ----- malloc on the list -----

  /** malloc cuts n units from the end of free block x, or takes it whole. */
  function Carve(lo: seq<Blk>, x: Blk, hi: seq<Blk>, n: int): (r: seq<Blk>) {
    if x.n == n then lo + hi else lo + [Blk(x.a, x.n - n)] + hi
  }
  function Carved(x: Blk, n: int): (b: Blk) {
    Blk(x.a + x.n - n, n)
  }

  lemma CarveSum(lo: seq<Blk>, x: Blk, hi: seq<Blk>, n: int)
    ensures Sum(Carve(lo, x, hi, n)) == Sum(lo + [x] + hi) - n
  {
    SumConcat(lo, [x]);
    SumConcat(lo + [x], hi);
    if x.n == n {
      SumConcat(lo, hi);
    } else {
      SumConcat(lo, [Blk(x.a, x.n - n)]);
      SumConcat(lo + [Blk(x.a, x.n - n)], hi);
    }
  }

  /** malloc keeps the list in order, disjoint and coalesced. */
  lemma CarveOk(base: int, lo: seq<Blk>, x: Blk, hi: seq<Blk>, n: int)
    requires FreeList(base, lo + [x] + hi) && lo != [] && 1 <= n <= x.n
    ensures FreeList(base, Carve(lo, x, hi, n))
  {
    Parts(base, lo, x, hi);
    if x.n == n {
      CoalescedConcat(lo, hi);
    } else {
      var y := Blk(x.a, x.n - n);
      CoalescedCons(y, hi);
      CoalescedConcat(lo, [y] + hi);
      assert lo + [y] + hi == lo + ([y] + hi);
    }
  }

  /** The block handed out is apart from what stays free. */
  lemma CarvedFresh(base: int, lo: seq<Blk>, x: Blk, hi: seq<Blk>, n: int)
    requires FreeList(base, lo + [x] + hi) && lo != [] && 1 <= n <= x.n
    ensures Fresh(base, Carve(lo, x, hi, n), Carved(x, n))
  {
    Parts(base, lo, x, hi);
    var b := Carved(x, n);
    assert AllApart(lo, b) && AllApart(hi, b) && lo[0].a < x.a;
  }

  /** What is apart from the free blocks is apart from what malloc takes out of them. */
  lemma CarveKeepsApart(base: int, lo: seq<Blk>, x: Blk, hi: seq<Blk>, n: int, c: Blk)
    requires Fresh(base, lo + [x] + hi, c) && 1 <= n <= x.n
    ensures Fresh(base, Carve(lo, x, hi, n), c) && Apart(Carved(x, n), c)
  {
    ApartParts(lo, x, hi, c);
  }

  // ----- the list in memory -----

  /** Header fields by address. */
  datatype Mem = Mem(ptr: map<int, int>, size: map<int, int>)

  function First(bs: seq<Blk>, end: int): (a: int) {
    if bs == [] then end else bs[0].a
  }

  /** The header of b holds its size and the address of the next free block. */
  predicate Hdr(m: Mem, b: Blk, next: int) {
    && b.a in m.size && m.size[b.a] == b.n
    && b.a in m.ptr && m.ptr[b.a] == next
  }

  /** The headers at bs link each block to the next, the last to end. */
  ghost predicate Chain(m: Mem, bs: seq<Blk>, end: int)
  {
    bs == [] || (Hdr(m, bs[0], First(bs[1..], end)) && Chain(m, bs[1..], end))
  }

  lemma ChainCons(m: Mem, b: Blk, ys: seq<Blk>, end: int)
    requires Hdr(m, b, First(ys, end)) && Chain(m, ys, end)
    ensures Chain(m, [b] + ys, end)
  {
    assert ([b] + ys)[1..] == ys;
  }

  lemma {:induction false} ChainSplit(m: Mem, xs: seq<Blk>, ys: seq<Blk>, end: int)
    requires Chain(m, xs + ys, end)
    ensures Chain(m, xs, First(ys, end)) && Chain(m, ys, end)
  {
    if xs == [] {
      assert xs + ys == ys;
    } else {
      assert (xs + ys)[1..] == xs[1..] + ys;
      ChainSplit(m, xs[1..], ys, end);
    }
  }

  lemma {:induction false} ChainJoin(m: Mem, xs: seq<Blk>, ys: seq<Blk>, end: int)
    requires Chain(m, xs, First(ys, end)) && Chain(m, ys, end)
    ensures Chain(m, xs + ys, end)
  {
    if xs == [] {
      assert xs + ys == ys;
    } else {
      assert (xs + ys)[1..] == xs[1..] + ys;
      ChainJoin(m, xs[1..], ys, end);
    }
  }

  /** The header at position i of a chain. */
  lemma {:induction false} ChainAt(m: Mem, bs: seq<Blk>, end: int, i: nat)
    requires Chain(m, bs, end) && i < |bs|
    ensures Hdr(m, bs[i], if i + 1 < |bs| then bs[i + 1].a else end)
  {
    if i > 0 { ChainAt(m, bs[1..], end, i - 1); }
  }

  /** m and m1 agree on the header at a. */
  predicate AgreeAt(m: Mem, m1: Mem, a: int) {
    && (a in m.size ==> a in m1.size && m1.size[a] == m.size[a])
    && (a in m.ptr ==> a in m1.ptr && m1.ptr[a] == m.ptr[a])
  }

  lemma {:induction false} ChainFrame(m: Mem, m1: Mem, bs: seq<Blk>, end: int)
    requires Chain(m, bs, end) && forall i :: 0 <= i < |bs| ==> AgreeAt(m, m1, bs[i].a)
    ensures Chain(m1, bs, end)
  {
    if bs != [] {
      assert AgreeAt(m, m1, bs[0].a);
      ChainFrame(m, m1, bs[1..], end);
    }
  }

  predicate NotAt(bs: seq<Blk>, a: int) {
    forall i :: 0 <= i < |bs| ==> bs[i].a != a
  }

  /** The two conditional statements of free, for a block at bp behind p. */
  function LinkUp(m: Mem, p: int, bp: int): (r: Mem)
    requires p in m.ptr && bp in m.size && (bp + m.size[bp] == m.ptr[p] ==> m.ptr[p] in m.size && m.ptr[p] in m.ptr)
    ensures forall a :: a != bp ==> AgreeAt(m, r, a)
  {
    if bp + m.size[bp] == m.ptr[p]
    then Mem(m.ptr[bp := m.ptr[m.ptr[p]]], m.size[bp := m.size[bp] + m.size[m.ptr[p]]])
    else Mem(m.ptr[bp := m.ptr[p]], m.size)
  }
  function LinkDown(m: Mem, p: int, bp: int): (r: Mem)
    requires p in m.size && bp in m.size && bp in m.ptr
    ensures forall a :: a != p ==> AgreeAt(m, r, a)
  {
    if p + m.size[p] == bp
    then Mem(m.ptr[p := m.ptr[bp]], m.size[p := m.size[p] + m.size[bp]])
    else Mem(m.ptr[p := bp], m.size)
  }

  /** After the first statement of free, b and what is above it form a chain. */
  lemma LinkUpChain(m: Mem, p: Blk, hi: seq<Blk>, b: Blk, base: int)
    requires Hdr(m, p, First(hi, base)) && Chain(m, hi, base)
    requires b.a in m.size && m.size[b.a] == b.n && b.n >= 1 && b.a != p.a && base < b.a && NotAt(hi, b.a)
    ensures b.a + m.size[b.a] == m.ptr[p.a] ==> m.ptr[p.a] in m.size && m.ptr[p.a] in m.ptr
    ensures Chain(LinkUp(m, p.a, b.a), Above(hi, b), base)
  {
    if hi != [] && b.a + b.n == hi[0].a {
      var m1 := LinkUp(m, p.a, b.a);
      ChainFrame(m, m1, hi[1..], base);
      ChainCons(m1, Blk(b.a, b.n + hi[0].n), hi[1..], base);
    } else {
      var m1 := LinkUp(m, p.a, b.a);
      ChainFrame(m, m1, hi, base);
      ChainCons(m1, b, hi, base);
    }
  }

  /** After the second statement of free, the chain starts at p. */
  lemma LinkDownChain(m: Mem, p: Blk, b: Blk, up: seq<Blk>, base: int)
    requires Chain(m, up, base) && up != [] && up[0].a == b.a && NotAt(up, p.a)
    requires p.a in m.size && m.size[p.a] == p.n
    ensures b.a in m.size && b.a in m.ptr
    ensures Chain(LinkDown(m, p.a, b.a), Below(p, b, up), base)
  {
    var m1 := LinkDown(m, p.a, b.a);
    if p.a + p.n == b.a {
      ChainFrame(m, m1, up[1..], base);
      ChainCons(m1, Blk(p.a, p.n + up[0].n), up[1..], base);
    } else {
      ChainFrame(m, m1, up, base);
      ChainCons(m1, p, up, base);
    }
  }

  /** free's stores turn the chain of the old list into the chain of the new one. */
  lemma FreeChain(m: Mem, base: int, lo: seq<Blk>, p: Blk, hi: seq<Blk>, b: Blk)
    requires FreeList(base, lo + [p] + hi) && Fresh(base, lo + [p] + hi, b)
    requires p.a < b.a && (hi != [] ==> b.a < hi[0].a)
    requires Chain(m, lo + [p] + hi, base) && b.a in m.size && m.size[b.a] == b.n
    ensures p.a in m.ptr && (b.a + m.size[b.a] == m.ptr[p.a] ==> m.ptr[p.a] in m.size && m.ptr[p.a] in m.ptr)
    ensures var m1 := LinkUp(m, p.a, b.a);
      && p.a in m1.size && b.a in m1.size && b.a in m1.ptr
      && Chain(LinkDown(m1, p.a, b.a), Insert(lo, p, hi, b), base)
  {
    Neighbours(base, lo, p, hi, b);
    assert lo + [p] + hi == lo + ([p] + hi);
    ChainSplit(m, lo, [p] + hi, base);
    assert ([p] + hi)[1..] == hi;
    assert NotAt(hi, b.a);
    LinkUpChain(m, p, hi, b, base);
    var m1, up := LinkUp(m, p.a, b.a), Above(hi, b);
    assert AgreeAt(m, m1, p.a);
    AboveOk(hi, b);
    assert NotAt(up, p.a);
    LinkDownChain(m1, p, b, up, base);
    var m2, r := LinkDown(m1, p.a, b.a), Below(p, b, up);
    forall i | 0 <= i < |lo| ensures AgreeAt(m, m2, lo[i].a) {
      assert AgreeAt(m, m1, lo[i].a) && AgreeAt(m1, m2, lo[i].a);
    }
    ChainFrame(m, m2, lo, p.a);
    ChainJoin(m2, lo, r, base);
  }

  /** malloc's stores, for the block x found behind q. */
  function Take(m: Mem, q: int, x: int, n: int): (r: Mem)
    requires x in m.size && x in m.ptr
    ensures forall a :: a != q && a != x && a != x + m.size[x] - n ==> AgreeAt(m, r, a)
  {
    if m.size[x] == n
    then Mem(m.ptr[q := m.ptr[x]], m.size)
    else Mem(m.ptr, m.size[x := m.size[x] - n][x + (m.size[x] - n) := n])
  }

  lemma TakeWholeChain(m: Mem, base: int, lo: seq<Blk>, q: Blk, x: Blk, hi: seq<Blk>)
    requires Chain(m, lo + [q] + ([x] + hi), base)
    requires NotAt(lo, q.a) && NotAt(hi, q.a) && x.a != q.a
    ensures x.a in m.size && x.a in m.ptr && Chain(Take(m, q.a, x.a, x.n), lo + [q] + hi, base)
  {
    ChainSplit(m, lo + [q], [x] + hi, base);
    ChainSplit(m, lo, [q], x.a);
    assert ([x] + hi)[1..] == hi;
    var m1 := Take(m, q.a, x.a, x.n);
    ChainFrame(m, m1, lo, q.a);
    ChainFrame(m, m1, hi, base);
    ChainCons(m1, q, hi, base);
    ChainJoin(m1, lo, [q] + hi, base);
    assert lo + [q] + hi == lo + ([q] + hi);
  }

  lemma TakeTailChain(m: Mem, base: int, lo: seq<Blk>, q: int, x: Blk, hi: seq<Blk>, n: int)
    requires Chain(m, lo + ([x] + hi), base) && 1 <= n < x.n
    requires NotAt(lo, x.a) && NotAt(hi, x.a)
    requires NotAt(lo, x.a + x.n - n) && NotAt(hi, x.a + x.n - n)
    ensures x.a in m.size && x.a in m.ptr
    ensures Chain(Take(m, q, x.a, n), lo + ([Blk(x.a, x.n - n)] + hi), base)
  {
    ChainSplit(m, lo, [x] + hi, base);
    assert ([x] + hi)[1..] == hi;
    var m1, y := Take(m, q, x.a, n), Blk(x.a, x.n - n);
    ChainFrame(m, m1, lo, x.a);
    ChainFrame(m, m1, hi, base);
    ChainCons(m1, y, hi, base);
    ChainJoin(m1, lo, [y] + hi, base);
  }

  /** malloc's stores turn the chain of the old list into the chain of the new one, and
      leave the size in the header of the block handed out. */
  lemma TakeChain(m: Mem, base: int, lo: seq<Blk>, q: Blk, x: Blk, hi: seq<Blk>, n: int)
    requires FreeList(base, lo + [q] + [x] + hi) && 1 <= n <= x.n
    requires Chain(m, lo + [q] + [x] + hi, base)
    ensures x.a in m.size && x.a in m.ptr
    ensures var m1, b := Take(m, q.a, x.a, n), Carved(x, n);
      Chain(m1, Carve(lo + [q], x, hi, n), base) && b.a in m1.size && m1.size[b.a] == n
  {
    hide Coalesced, FreeList, Chain, NotAt, EndsBefore, Sized;
    TakePlaces(base, lo, q, x, hi, n);
    assert lo + [q] + [x] + hi == lo + [q] + ([x] + hi);
    ChainSplit(m, lo + [q], [x] + hi, base);
    ChainHead(m, x, hi, base);
    if x.n == n {
      TakeWholeChain(m, base, lo, q, x, hi);
    } else {
      TakeTailChain(m, base, lo + [q], q.a, x, hi, n);
      assert lo + [q] + [Blk(x.a, x.n - n)] + hi == lo + [q] + ([Blk(x.a, x.n - n)] + hi);
    }
  }

  lemma ChainHead(m: Mem, x: Blk, hi: seq<Blk>, base: int)
    requires Chain(m, [x] + hi, base)
    ensures x.a in m.size && m.size[x.a] == x.n && x.a in m.ptr
  {
  }

  /** The stores of malloc touch no header of a block that stays. */
  lemma TakePlaces(base: int, lo: seq<Blk>, q: Blk, x: Blk, hi: seq<Blk>, n: int)
    requires FreeList(base, lo + [q] + [x] + hi) && 1 <= n <= x.n
    ensures NotAt(lo, q.a) && NotAt(hi, q.a) && x.a != q.a && NotAt(lo + [q], x.a) && NotAt(hi, x.a)
    ensures NotAt(lo + [q], x.a + x.n - n) && NotAt(hi, x.a + x.n - n)
  {
    assert lo + [q] + [x] + hi == (lo + [q]) + [x] + hi;
    Parts(base, lo + [q], x, hi);
    hide FreeList;
    var l := lo + [q];
    assert l[|lo|] == q && forall i :: 0 <= i < |lo| ==> lo[i] == l[i];
  }

  // ----- the whole heap -----

  /** A heap: its memory, the free list in address order, the blocks handed out, the end of
      the memory sbrk has given, and how many units that is. */
  datatype Heap = Heap(base: int, m: Mem, fl: seq<Blk>, live: seq<Blk>, top: int, obtained: int)

  ghost predicate LiveOk(h: Heap, b: Blk) {
    Fresh(h.base, h.fl, b) && b.a in h.m.size && h.m.size[b.a] == b.n && b.a + b.n <= h.top
  }

  ghost predicate LivesOk(h: Heap) {
    && (forall i :: 0 <= i < |h.live| ==> LiveOk(h, h.live[i]))
    && (forall i, j :: 0 <= i < j < |h.live| ==> Apart(h.live[i], h.live[j]))
  }

  /** The list is circular, in address order and coalesced; blocks handed out are apart from
      it and from each other and keep their size in their header; no unit is lost. */
  ghost predicate HeapOk(h: Heap) {
    && FreeList(h.base, h.fl) && Chain(h.m, h.fl, h.base)
    && EndsBefore(h.fl, h.top + 1)
    && LivesOk(h)
    && Sum(h.fl) + Sum(h.live) == h.obtained
  }

  /** A live block has its own header address. */
  lemma LiveAddress(base: int, fl: seq<Blk>, b: Blk)
    requires FreeList(base, fl) && Fresh(base, fl, b)
    ensures NotAt(fl, b.a)
  {
    forall i | 0 <= i < |fl| ensures fl[i].a != b.a { assert Apart(fl[i], b); }
  }

  /** Where free's search must stop. */
  lemma Slot(base: int, fl: seq<Blk>, b: Blk) returns (t: nat)
    requires FreeList(base, fl) && Fresh(base, fl, b)
    ensures t < |fl| && fl[t].a < b.a && (t + 1 < |fl| ==> b.a < fl[t + 1].a)
  {
    LiveAddress(base, fl, b);
    t := 0;
    while t + 1 < |fl| && fl[t + 1].a < b.a
      invariant t < |fl| && fl[t].a < b.a
    {
      t := t + 1;
    }
  }

  /** The heap after free of live block ix, found to lie behind position t. */
  function Freed(h: Heap, ix: nat, t: nat): (r: Heap)
    requires ix < |h.live| && t < |h.fl|
    requires Writable(h.m, h.fl[t].a, h.live[ix].a)
  {
    var p, b := h.fl[t], h.live[ix];
    h.(m := LinkDown(LinkUp(h.m, p.a, b.a), p.a, b.a),
       fl := Insert(h.fl[..t], p, h.fl[t + 1..], b),
       live := h.live[..ix] + h.live[ix + 1..])
  }

  /** free's stores are defined. */
  predicate Writable(m: Mem, p: int, bp: int) {
    && p in m.ptr && bp in m.size
    && (bp + m.size[bp] == m.ptr[p] ==> m.ptr[p] in m.size && m.ptr[p] in m.ptr)
    && p in LinkUp(m, p, bp).size
  }

  lemma FreedChain(h: Heap, ix: nat, t: nat)
    requires HeapOk(h) && ix < |h.live| && t < |h.fl|
    requires h.fl[t].a < h.live[ix].a && (t + 1 < |h.fl| ==> h.live[ix].a < h.fl[t + 1].a)
    ensures Writable(h.m, h.fl[t].a, h.live[ix].a)
    ensures var r := Freed(h, ix, t);
      && Chain(r.m, r.fl, r.base) && FreeList(r.base, r.fl)
      && Sum(r.fl) == Sum(h.fl) + h.live[ix].n
  {
    var lo, p, hi, b := h.fl[..t], h.fl[t], h.fl[t + 1..], h.live[ix];
    assert h.fl == lo + [p] + hi;
    assert LiveOk(h, b);
    FreeChain(h.m, h.base, lo, p, hi, b);
    InsertOk(h.base, lo, p, hi, b);
  }

  lemma FreedLive(h: Heap, ix: nat, t: nat, c: Blk)
    requires HeapOk(h) && ix < |h.live| && t < |h.fl|
    requires h.fl[t].a < h.live[ix].a && (t + 1 < |h.fl| ==> h.live[ix].a < h.fl[t + 1].a)
    requires Writable(h.m, h.fl[t].a, h.live[ix].a)
    requires LiveOk(h, c) && Apart(h.live[ix], c)
    ensures LiveOk(Freed(h, ix, t), c)
  {
    var lo, p, hi, b := h.fl[..t], h.fl[t], h.fl[t + 1..], h.live[ix];
    assert h.fl == lo + [p] + hi;
    assert LiveOk(h, b);
    InsertKeepsApart(h.base, lo, p, hi, b, c);
    LiveAddress(h.base, h.fl, c);
    assert c.a != p.a && c.a != b.a;
    var m1 := LinkUp(h.m, p.a, b.a);
    assert AgreeAt(h.m, m1, c.a) && AgreeAt(m1, LinkDown(m1, p.a, b.a), c.a);
  }

  lemma EndsParts(lo: seq<Blk>, p: Blk, hi: seq<Blk>, x: int)
    requires EndsBefore(lo + [p] + hi, x)
    ensures EndsBefore(lo, x) && p.a + p.n < x && EndsBefore(hi, x)
  {
    var fl := lo + [p] + hi;
    assert forall i :: 0 <= i < |lo| ==> lo[i] == fl[i];
    assert fl[|lo|] == p;
    assert forall i :: 0 <= i < |hi| ==> hi[i] == fl[|lo| + 1 + i];
  }

  lemma BelowTop(lo: seq<Blk>, p: Blk, hi: seq<Blk>, b: Blk, x: int)
    requires EndsBefore(lo + [p] + hi, x) && b.a + b.n < x
    ensures EndsBefore(Insert(lo, p, hi, b), x)
  {
    EndsParts(lo, p, hi, x);
    var up := Above(hi, b);
    assert EndsBefore(up, x) && up[0].a == b.a;
    assert EndsBefore(Below(p, b, up), x);
  }

  lemma FreedLiveIs(h: Heap, ix: nat, t: nat)
    requires HeapOk(h) && ix < |h.live| && t < |h.fl| && Writable(h.m, h.fl[t].a, h.live[ix].a)
    ensures var r := Freed(h, ix, t);
      && |r.live| == |h.live| - 1 && (forall i :: 0 <= i < |r.live| ==>
           r.live[i] == h.live[if i < ix then i else i + 1])
      && forall j :: 0 <= j < |h.live| ==> LiveOk(h, h.live[j])
  {
    hide LiveOk;
  }

  lemma FreedLives(h: Heap, ix: nat, t: nat)
    requires HeapOk(h) && ix < |h.live| && t < |h.fl|
    requires h.fl[t].a < h.live[ix].a && (t + 1 < |h.fl| ==> h.live[ix].a < h.fl[t + 1].a)
    requires Writable(h.m, h.fl[t].a, h.live[ix].a)
    ensures LivesOk(Freed(h, ix, t))
  {
    FreedLiveIs(h, ix, t);
    hide Freed, LiveOk, HeapOk;
    var r := Freed(h, ix, t);
    forall i | 0 <= i < |r.live| ensures LiveOk(r, r.live[i]) {
      var j := if i < ix then i else i + 1;
      assert r.live[i] == h.live[j];
      assert LiveOk(h, h.live[j]);
      FreedLive(h, ix, t, h.live[j]);
    }
    assert forall i :: 0 <= i < |r.live| ==> r.live[i] == h.live[if i < ix then i else i + 1];
  }

  /** The block below the freed one keeps its place in the list. */
  lemma FreedPlace(h: Heap, ix: nat, t: nat)
    requires ix < |h.live| && t < |h.fl| && Writable(h.m, h.fl[t].a, h.live[ix].a)
    ensures t < |Freed(h, ix, t).fl| && Freed(h, ix, t).fl[t].a == h.fl[t].a
  {
  }

  /** free keeps the heap: the list absorbs the block, every other block stays as it was. */
  lemma FreedOk(h: Heap, ix: nat, t: nat)
    requires HeapOk(h) && ix < |h.live| && t < |h.fl|
    requires h.fl[t].a < h.live[ix].a && (t + 1 < |h.fl| ==> h.live[ix].a < h.fl[t + 1].a)
    ensures Writable(h.m, h.fl[t].a, h.live[ix].a)
    ensures HeapOk(Freed(h, ix, t))
  {
    FreedChain(h, ix, t);
    FreedLives(h, ix, t);
    SumWithout(h.live, ix);
    assert LiveOk(h, h.live[ix]);
    FreedTop(h.fl, t, h.live[ix], h.top + 1);
  }

  lemma SumWithout(bs: seq<Blk>, i: nat)
    requires i < |bs|
    ensures Sum(bs[..i] + bs[i + 1..]) == Sum(bs) - bs[i].n
  {
    SumAt(bs, i);
    SumConcat(bs[..i], bs[i + 1..]);
  }

  lemma FreedTop(fl: seq<Blk>, t: nat, b: Blk, x: int)
    requires EndsBefore(fl, x) && t < |fl| && b.a + b.n < x
    ensures EndsBefore(Insert(fl[..t], fl[t], fl[t + 1..], b), x)
  {
    assert fl == fl[..t] + [fl[t]] + fl[t + 1..];
    BelowTop(fl[..t], fl[t], fl[t + 1..], b, x);
  }

  /** morecore's new block, before it is given to free. */
  function Grown(h: Heap, b: Blk): (r: Heap) {
    h.(m := h.m.(size := h.m.size[b.a := b.n]), live := h.live + [b], top := b.a + b.n, obtained := h.obtained + b.n)
  }

  lemma GrownOk(h: Heap, b: Blk)
    requires HeapOk(h) && b.a >= h.top && b.n >= 1 && h.base < h.top
    ensures HeapOk(Grown(h, b))
  {
    var r := Grown(h, b);
    forall i | 0 <= i < |h.fl| ensures Apart(h.fl[i], b) && AgreeAt(h.m, r.m, h.fl[i].a) {
      assert h.fl[i].a + h.fl[i].n < h.top + 1;
      assert h.fl[i].n >= 1 || h.fl[i].a == h.base;
    }
    ChainFrame(h.m, r.m, h.fl, h.base);
    assert AllApart(h.fl, b);
    forall i | 0 <= i < |r.live| ensures LiveOk(r, r.live[i]) {
      if i < |h.live| { assert LiveOk(h, h.live[i]); }
    }
    forall i, j | 0 <= i < j < |r.live| ensures Apart(r.live[i], r.live[j]) {
      assert LiveOk(h, h.live[i]);
    }
    SumConcat(h.live, [b]);
  }

  /** The heap after malloc takes n units from free block k. */
  function Taken(h: Heap, k: nat, n: int): (r: Heap)
    requires 1 <= k < |h.fl| && h.fl[k].a in h.m.size && h.fl[k].a in h.m.ptr
  {
    h.(m := Take(h.m, h.fl[k - 1].a, h.fl[k].a, n),
       fl := Carve(h.fl[..k], h.fl[k], h.fl[k + 1..], n),
       live := h.live + [Carved(h.fl[k], n)])
  }

  lemma TakenChain(h: Heap, k: nat, n: int)
    requires HeapOk(h) && 1 <= k < |h.fl| && 1 <= n <= h.fl[k].n
    ensures h.fl[k].a in h.m.size && h.fl[k].a in h.m.ptr && h.m.size[h.fl[k].a] == h.fl[k].n
    ensures var r, b := Taken(h, k, n), Carved(h.fl[k], n);
      && Chain(r.m, r.fl, r.base) && FreeList(r.base, r.fl) && Sum(r.fl) == Sum(h.fl) - n
      && LiveOk(r, b)
  {
    var lo, q, x, hi := h.fl[..k - 1], h.fl[k - 1], h.fl[k], h.fl[k + 1..];
    assert h.fl[..k] == lo + [q];
    assert h.fl == lo + [q] + [x] + hi;
    ChainAt(h.m, h.fl, h.base, k);
    TakeChain(h.m, h.base, lo, q, x, hi, n);
    CarveOk(h.base, lo + [q], x, hi, n);
    CarvedFresh(h.base, lo + [q], x, hi, n);
    CarveSum(lo + [q], x, hi, n);
  }

  lemma TakenLive(h: Heap, k: nat, n: int, c: Blk)
    requires HeapOk(h) && 1 <= k < |h.fl| && 1 <= n <= h.fl[k].n && LiveOk(h, c)
    requires h.fl[k].a in h.m.size && h.fl[k].a in h.m.ptr && h.m.size[h.fl[k].a] == h.fl[k].n
    ensures LiveOk(Taken(h, k, n), c) && Apart(Carved(h.fl[k], n), c)
  {
    assert h.fl == h.fl[..k] + [h.fl[k]] + h.fl[k + 1..];
    CarveKeepsApart(h.base, h.fl[..k], h.fl[k], h.fl[k + 1..], n, c);
    LiveAddress(h.base, h.fl, c);
    assert Apart(h.fl[k], c);
    assert AgreeAt(h.m, Taken(h, k, n).m, c.a);
  }

  /** malloc keeps the heap and adds one live block of n units. */
  lemma TakenOk(h: Heap, k: nat, n: int)
    requires HeapOk(h) && 1 <= k < |h.fl| && 1 <= n <= h.fl[k].n
    ensures h.fl[k].a in h.m.size && h.fl[k].a in h.m.ptr && h.m.size[h.fl[k].a] == h.fl[k].n
    ensures HeapOk(Taken(h, k, n))
  {
    TakenChain(h, k, n);
    var r := Taken(h, k, n);
    forall i | 0 <= i < |h.live| ensures LiveOk(r, h.live[i]) && Apart(h.live[i], Carved(h.fl[k], n)) {
      assert LiveOk(h, h.live[i]);
      TakenLive(h, k, n, h.live[i]);
    }
    SumConcat(h.live, [Carved(h.fl[k], n)]);
    CarveTop(h.fl, k, n, h.top + 1);
  }

  lemma CarveTop(fl: seq<Blk>, k: nat, n: int, x: int)
    requires EndsBefore(fl, x) && k < |fl| && n >= 1
    ensures EndsBefore(Carve(fl[..k], fl[k], fl[k + 1..], n), x)
  {
    assert fl == fl[..k] + [fl[k]] + fl[k + 1..];
    EndsParts(fl[..k], fl[k], fl[k + 1..], x);
  }
}
