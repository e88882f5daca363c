/** The buffer cache (bio.c): a circular doubly linked list of buffers in
    least-recently-released order, in front of a disk.

    Buffers are indices into bcache.buf; index nb stands for bcache.head.  A method is a
    section that runs under bcache.lock or under the buffer's sleep lock. */
module BufCache {

  type Data = seq<int>
  datatype Key = Key(dev: nat, blockno: nat)

  /** struct buf, without its links.  locked is its sleep lock. */
  datatype Buf = Buf(key: Key, refcnt: nat, valid: bool, dirty: bool, locked: bool, data: Data) {
    /** Never used since boot, or as good as that: any other buffer may carry its key. */
    predicate Inert() { refcnt == 0 && !valid && !dirty }
    /** May be recycled for another block. */
    predicate Free() { refcnt == 0 && !dirty }
  }

  /** Position i of the ring: the head at -1 and at |o|. */
  function At(o: seq<nat>, nb: nat, i: int): (b: nat) {
    if 0 <= i < |o| then o[i] else nb
  }

  predicate Distinct(o: seq<nat>) {
    forall i, j :: 0 <= i < j < |o| ==> o[i] != o[j]
  }

  /** The list order after buffer o[k] moved to the front. */
  function MoveToFront(o: seq<nat>, k: nat): (r: seq<nat>)
    requires k < |o|
  {
    [o[k]] + (o[..k] + o[k + 1..])
  }

  /** Where each buffer is after o[k] moved to the front. */
  function MovePos(pos: seq<nat>, b: nat): (r: seq<nat>)
    requires b < |pos|
  {
    seq(|pos|, c requires 0 <= c < |pos| =>
      if c == b then 0 else if pos[c] < pos[b] then pos[c] + 1 else pos[c])
  }

  /** The list o holds every buffer exactly once, pos being its inverse. */
  ghost predicate Lists(nb: nat, o: seq<nat>, pos: seq<nat>) {
    && |o| == nb && |pos| == nb
    && (forall i :: 0 <= i < nb ==> o[i] < nb && pos[o[i]] == i)
    && (forall b :: 0 <= b < nb ==> pos[b] < nb && o[pos[b]] == b)
  }

  /** Latest release first; no release is later than clock. */
  ghost predicate Ordered(pos: seq<nat>, stamp: seq<nat>, clock: nat) {
    && |stamp| == |pos|
    && (forall b, c :: 0 <= b < |pos| && 0 <= c < |pos| && pos[b] < pos[c] ==> stamp[b] >= stamp[c])
    && (forall b :: 0 <= b < |stamp| ==> stamp[b] <= clock)
  }

  lemma MoveKeepsLists(nb: nat, o: seq<nat>, pos: seq<nat>, b: nat)
    requires Lists(nb, o, pos) && b < nb
    ensures Lists(nb, MoveToFront(o, pos[b]), MovePos(pos, b))
  {
    var k := pos[b];
    var r, q := MoveToFront(o, k), MovePos(pos, b);
    forall i | 0 <= i < nb ensures r[i] < nb && q[r[i]] == i {
      assert r[i] == if i == 0 then o[k] else if i <= k then o[i - 1] else o[i];
    }
    forall c | 0 <= c < nb ensures q[c] < nb && r[q[c]] == c {
      assert c != b ==> pos[c] != k;
      assert r[q[c]] == if q[c] == 0 then o[k] else if q[c] <= k then o[q[c] - 1] else o[q[c]];
    }
  }

  /** A release that moves its buffer to the front and stamps it last keeps the order. */
  lemma MoveKeepsOrder(pos: seq<nat>, stamp: seq<nat>, clock: nat, b: nat)
    requires Ordered(pos, stamp, clock) && b < |pos|
    ensures Ordered(MovePos(pos, b), stamp[b := clock + 1], clock + 1)
  {
  }

  // ----- coherence, on values -----

  /** The buffers and the disk, with three things the proof tracks: view, the plain block
      map that cache and disk present together; at, where each cached block is; unsaved,
      the buffers whose holder changed the data and has not logged or written it yet. */
  datatype Mem = Mem(bufs: seq<Buf>, disk: map<Key, Data>, view: map<Key, Data>, at: map<Key, nat>, unsaved: set<nat>)

  /** What a buffer promises about its block: a valid buffer holds the block unless its
      holder is changing it, and a clean one agrees with the disk. */
  predicate BufOk(m: Mem, b: nat, f: Buf) {
    && (f.locked ==> f.refcnt > 0)
    && (f.dirty ==> f.valid)
    && (b in m.unsaved ==> f.locked && f.valid)
    && (f.valid ==> f.key in m.disk && f.key in m.view && f.key in m.at && m.at[f.key] == b)
    && (f.valid && b !in m.unsaved ==> m.view[f.key] == f.data)
    && (f.valid && !f.dirty ==> m.view[f.key] == m.disk[f.key])
  }

  /** Cache and disk together present view. */
  ghost predicate Coherent(m: Mem) {
    && m.view.Keys == m.disk.Keys
    && (forall b :: 0 <= b < |m.bufs| ==> BufOk(m, b, m.bufs[b]))
    && (forall k :: k in m.at ==> m.at[k] < |m.bufs| && m.bufs[m.at[k]].valid && m.bufs[m.at[k]].key == k)
    && (forall k :: k in m.disk && k !in m.at ==> m.view[k] == m.disk[k])
  }

  /** Of two buffers with one key, the later in the list is inert. */
  ghost predicate KeysOk(bufs: seq<Buf>, pos: seq<nat>) {
    && |pos| == |bufs|
    && forall b, c :: 0 <= b < |pos| && 0 <= c < |pos| && pos[b] < pos[c] && bufs[b].key == bufs[c].key ==>
         bufs[c].Inert()
  }

  /** A change to one buffer that keeps its key and validity. */
  lemma SetBuf(m: Mem, b: nat, f: Buf)
    requires Coherent(m) && b < |m.bufs| && BufOk(m, b, f)
    requires f.key == m.bufs[b].key && f.valid == m.bufs[b].valid
    ensures Coherent(m.(bufs := m.bufs[b := f]))
  {
  }

  /** The same, when the holder changes the data. */
  lemma SetUnsaved(m: Mem, b: nat, data: Data)
    requires Coherent(m) && b < |m.bufs| && m.bufs[b].locked && m.bufs[b].valid
    ensures Coherent(m.(bufs := m.bufs[b := m.bufs[b].(data := data)], unsaved := m.unsaved + {b}))
  {
    assert BufOk(m, b, m.bufs[b]);
  }

  /** Logging a change: the plain map gets the data, B_DIRTY stands for the difference. */
  lemma SetDirty(m: Mem, b: nat)
    requires Coherent(m) && b < |m.bufs| && m.bufs[b].valid
    ensures var f := m.bufs[b].(dirty := true);
      Coherent(m.(bufs := m.bufs[b := f], view := m.view[f.key := f.data], unsaved := m.unsaved - {b}))
  {
    assert BufOk(m, b, m.bufs[b]);
  }

  /** Writing a change: the plain map and the disk both get the data. */
  lemma SetWritten(m: Mem, b: nat)
    requires Coherent(m) && b < |m.bufs| && m.bufs[b].valid
    ensures var f := m.bufs[b].(dirty := false);
      Coherent(m.(bufs := m.bufs[b := f], disk := m.disk[f.key := f.data], view := m.view[f.key := f.data],
                  unsaved := m.unsaved - {b}))
  {
    assert BufOk(m, b, m.bufs[b]);
  }

  /** Recycling an unreferenced clean buffer loses nothing: what it held is on disk. */
  lemma SetRecycled(m: Mem, b: nat, key: Key)
    requires Coherent(m) && b < |m.bufs| && m.bufs[b].Free()
    ensures Coherent(m.(bufs := m.bufs[b := Buf(key, 1, false, false, false, m.bufs[b].data)],
                        at := if m.bufs[b].valid then m.at - {m.bufs[b].key} else m.at))
  {
    assert BufOk(m, b, m.bufs[b]);
  }

  /** Reading an uncached block from disk. */
  lemma SetFilled(m: Mem, b: nat)
    requires Coherent(m) && b < |m.bufs| && m.bufs[b].locked && !m.bufs[b].valid && b !in m.unsaved
    requires m.bufs[b].key in m.disk && m.bufs[b].key !in m.at
    ensures var f := m.bufs[b].(valid := true, data := m.disk[m.bufs[b].key]);
      && f.data == m.view[f.key]
      && Coherent(m.(bufs := m.bufs[b := f], at := m.at[f.key := b]))
  {
    assert BufOk(m, b, m.bufs[b]);
  }

  /** A buffer in use is the only one in use for its block. */
  lemma Sole(bufs: seq<Buf>, pos: seq<nat>, b: nat, c: nat)
    requires KeysOk(bufs, pos) && b < |pos| && c < |pos| && pos[b] != pos[c]
    requires bufs[b].key == bufs[c].key && !bufs[b].Inert()
    ensures pos[b] < pos[c] && bufs[c].Inert()
  {
  }

  lemma FirstOfKey(bufs: seq<Buf>, pos: seq<nat>, b: nat)
    requires KeysOk(bufs, pos) && b < |pos| && !bufs[b].Inert()
    ensures forall c :: 0 <= c < |pos| && pos[c] < pos[b] ==> bufs[c].key != bufs[b].key
  {
  }

  /** A buffer that comes first among those with its key may change as long as the key stays. */
  lemma KeysAfterUpdate(bufs: seq<Buf>, pos: seq<nat>, b: nat, f: Buf)
    requires KeysOk(bufs, pos) && b < |pos| && f.key == bufs[b].key
    requires forall c :: 0 <= c < |pos| && pos[c] < pos[b] ==> bufs[c].key != bufs[b].key
    ensures KeysOk(bufs[b := f], pos)
  {
  }

  /** A buffer may take a key that no buffer has. */
  lemma KeysAfterRekey(bufs: seq<Buf>, pos: seq<nat>, b: nat, f: Buf)
    requires KeysOk(bufs, pos) && b < |pos|
    requires forall c :: 0 <= c < |pos| ==> bufs[c].key != f.key
    ensures KeysOk(bufs[b := f], pos)
  {
  }

  lemma KeysAfterMove(bufs: seq<Buf>, pos: seq<nat>, b: nat)
    requires KeysOk(bufs, pos) && b < |pos|
    requires forall c :: 0 <= c < |pos| && pos[c] < pos[b] ==> bufs[c].key != bufs[b].key
    requires forall c :: 0 <= c < |pos| && c != b ==> pos[c] != pos[b]
    ensures KeysOk(bufs, MovePos(pos, b))
  {
  }

  /** A buffer before its first use. */
  const Unused := Buf(Key(0, 0), 0, false, false, false, [])

  lemma InitOk(nb: nat, disk: map<Key, Data>, bufs: seq<Buf>, pos: seq<nat>)
    requires |bufs| == |pos| && forall i :: 0 <= i < |bufs| ==> bufs[i] == Unused
    ensures Coherent(Mem(bufs, disk, disk, map[], {})) && KeysOk(bufs, pos)
  {
  }

  class Cache {
    const nb: nat                  // NBUF
    const next: array<nat>
    const prev: array<nat>
    const buf: array<Buf>
    var disk: map<Key, Data>
    ghost var order: seq<nat>      // the list from head.next
    ghost var pos: seq<nat>        // its inverse
    ghost var stamp: seq<nat>      // when each buffer last dropped to no references
    ghost var clock: nat
    ghost var view: map<Key, Data>
    ghost var at: map<Key, nat>
    ghost var unsaved: set<nat>

    ghost function M(): (m: Mem)
      reads this`disk, this`view, this`at, this`unsaved, buf
    {
      Mem(buf[..], disk, view, at, unsaved)
    }

    /** Positions i and i + 1 of the ring are linked both ways. */
    ghost predicate Linked(o: seq<nat>, i: int)
      requires next.Length == nb + 1 && prev.Length == nb + 1
      requires forall j :: 0 <= j < |o| ==> o[j] < nb
      reads next, prev
    {
      next[At(o, nb, i)] == At(o, nb, i + 1) && prev[At(o, nb, i + 1)] == At(o, nb, i)
    }

    /** o is the circular list threaded through next and prev. */
    ghost predicate Links(o: seq<nat>)
      reads next, prev
    {
      && next.Length == nb + 1 && prev.Length == nb + 1 && next != prev
      && Distinct(o) && (forall i :: 0 <= i < |o| ==> o[i] < nb)
      && (forall i :: -1 <= i < |o| ==> Linked(o, i))
    }

    ghost predicate ListInv()
      reads this`order, this`pos, this`stamp, this`clock, next, prev
    {
      Links(order) && Lists(nb, order, pos) && Ordered(pos, stamp, clock)
    }

    ghost predicate Valid()
      reads this, next, prev, buf
    {
      buf.Length == nb && ListInv() && KeysOk(buf[..], pos) && Coherent(M())
    }

    /** Store f in buffer b, which is in use, and d on the disk; m is the outcome. */
    method Store(b: nat, f: Buf, d: map<Key, Data>, ghost m: Mem)
      requires Valid() && b < nb && !buf[b].Inert() && f.key == buf[b].key
      requires Coherent(m) && m.bufs == buf[..][b := f] && m.disk == d
      modifies this`disk, this`view, this`at, this`unsaved, buf
      ensures Valid() && M() == m
    {
      hide Coherent, KeysOk, Ordered, Distinct, Links;
      FirstOfKey(buf[..], pos, b);
      KeysAfterUpdate(buf[..], pos, b, f);
      buf[b] := f;
      disk := d;
      view, at, unsaved := m.view, m.at, m.unsaved;
      assert buf[..] == m.bufs;
    }

    /** Put b, not in the list, right behind the head. */
    method PushFront(b: nat, ghost o: seq<nat>)
      requires Links(o) && b < nb && b !in o
      modifies next, prev
      ensures Links([b] + o)
    {
      assert Linked(o, -1);
      next[b] := next[nb];
      prev[b] := nb;
      prev[next[nb]] := b;
      next[nb] := b;
      ghost var r := [b] + o;
      forall i | -1 <= i < |r| ensures Linked(r, i) {
        if i >= 1 { assert old(Linked(o, i - 1)); }
      }
    }

    /** Take o[k] out of the list. */
    method Unlink(b: nat, ghost o: seq<nat>, ghost k: nat)
      requires Links(o) && k < |o| && o[k] == b
      modifies next, prev
      ensures Links(o[..k] + o[k + 1..])
    {
      assert Linked(o, k - 1) && Linked(o, k);
      prev[next[b]] := prev[b];
      next[prev[b]] := next[b];
      ghost var r := o[..k] + o[k + 1..];
      forall i | -1 <= i < |r| ensures Linked(r, i) {
        if i < k - 1 { assert old(Linked(o, i)); }
        if i >= k { assert old(Linked(o, i + 1)); }
      }
    }

    /** binit: every buffer unused, with key (0, 0). */
    constructor (nb: nat, disk: map<Key, Data>)
      ensures Valid() && this.nb == nb && this.disk == disk && view == disk && unsaved == {}
      ensures fresh(next) && fresh(prev) && fresh(buf)
      ensures forall b :: 0 <= b < nb ==> buf[b] == Unused
    {
      this.nb := nb;
      this.disk := disk;
      var nx, pv := new nat[nb + 1](i => nb), new nat[nb + 1](i => nb);
      next, prev := nx, pv;
      buf := new Buf[nb](i => Unused);
      pos := seq(nb, i requires 0 <= i < nb => nb - 1 - i);
      stamp, clock := seq(nb, i => 0), 0;
      view, at, unsaved := disk, map[], {};
      order := [];
      new;
      ThreadAll();
      hide Links, Coherent, KeysOk;
      InitOk(nb, disk, buf[..], pos);
    }

    /** The loop of binit: each buffer in turn goes to the front of the list. */
    method ThreadAll()
      requires Links([])
      modifies this`order, next, prev
      ensures Links(order) && |order| == nb && forall i :: 0 <= i < nb ==> order[i] == nb - 1 - i
    {
      order := [];
      for b := 0 to nb
        invariant Links(order) && |order| == b
        invariant forall i :: 0 <= i < b ==> order[i] == b - 1 - i
      {
        PushFront(b, order);
        order := [b] + order;
      }
    }

    /** The first loop of bget: the first buffer in the list with the key, or nb. */
    method FindKey(key: Key) returns (b: nat)
      requires ListInv() && buf.Length == nb
      ensures b == nb ==> forall c :: 0 <= c < nb ==> buf[c].key != key
      ensures b != nb ==> b < nb && buf[b].key == key && forall c :: 0 <= c < nb && pos[c] < pos[b] ==>
        buf[c].key != key
    {
      assert Linked(order, -1);
      b := next[nb];
      ghost var i := 0;
      while b != nb && buf[b].key != key
        invariant 0 <= i <= nb && b == At(order, nb, i)
        invariant forall j :: 0 <= j < i ==> buf[order[j]].key != key
        decreases nb - i
      {
        assert Linked(order, i);
        b := next[b];
        i := i + 1;
      }
      forall c | 0 <= c < nb && pos[c] < i ensures buf[c].key != key {
        assert order[pos[c]] == c;
      }
    }

    /** The second loop of bget: of the buffers that may be recycled, the one released
        longest ago, or nb. */
    method FindFree() returns (b: nat)
      requires ListInv() && buf.Length == nb
      ensures b == nb ==> forall c :: 0 <= c < nb ==> !buf[c].Free()
      ensures b != nb ==> b < nb && buf[b].Free() && forall c :: 0 <= c < nb && buf[c].Free() ==> stamp[b] <= stamp[c]
    {
      assert Linked(order, nb - 1);
      b := prev[nb];
      ghost var i := nb - 1;
      while b != nb && !(buf[b].refcnt == 0 && !buf[b].dirty)
        invariant -1 <= i < nb && b == At(order, nb, i)
        invariant forall j :: i < j < nb ==> !buf[order[j]].Free()
        decreases i
      {
        assert Linked(order, i - 1);
        b := prev[b];
        i := i - 1;
      }
      forall c | 0 <= c < nb && pos[c] > i ensures !buf[c].Free() {
        assert order[pos[c]] == c;
      }
      forall c | 0 <= c < nb && b != nb && buf[c].Free() ensures stamp[b] <= stamp[c] {
        assert pos[b] == i;
        assert c != b ==> pos[c] != pos[b] by { assert order[pos[c]] == c && order[pos[b]] == b; }
      }
    }

    /** bget under bcache.lock.  A hit returns the first buffer with the key.  A miss
        recycles, of all buffers without references or logged changes, the one released
        longest ago.  -1 is the panic: every buffer is referenced or dirty. */
    method BGet(key: Key) returns (r: int)
      requires Valid()
      modifies this`at, buf
      ensures Valid()
      ensures r == -1 || 0 <= r < nb
      ensures r == -1 ==> buf[..] == old(buf[..]) && forall b :: 0 <= b < nb ==> buf[b].key != key && !buf[b].Free()
      ensures r != -1 && old(buf[r]).key == key ==>
        buf[..] == old(buf[..])[r := old(buf[r]).(refcnt := old(buf[r]).refcnt + 1)]
      ensures r != -1 && old(buf[r]).key != key ==>
        && (forall b :: 0 <= b < nb ==> old(buf[b]).key != key)
        && old(buf[r]).Free()
        && (forall b :: 0 <= b < nb && old(buf[b]).Free() ==> stamp[r] <= stamp[b])
        && buf[..] == old(buf[..])[r := Buf(key, 1, false, false, false, old(buf[r]).data)]
    {
      var b := FindKey(key);
      if b != nb {
        Hit(b);
        return b;
      }
      b := FindFree();
      if b != nb {
        Rekey(b, key);
        return b;
      }
      return -1;
    }

    /** The matching buffer gets another reference. */
    method Hit(b: nat)
      requires Valid() && b < nb
      requires forall c :: 0 <= c < nb && pos[c] < pos[b] ==> buf[c].key != buf[b].key
      modifies buf
      ensures Valid()
      ensures buf[..] == old(buf[..])[b := old(buf[b]).(refcnt := old(buf[b]).refcnt + 1)]
    {
      ghost var m, f := M(), buf[b].(refcnt := buf[b].refcnt + 1);
      assert BufOk(m, b, m.bufs[b]);
      SetBuf(m, b, f);
      KeysAfterUpdate(m.bufs, pos, b, f);
      buf[b] := buf[b].(refcnt := buf[b].refcnt + 1);
      assert M() == m.(bufs := m.bufs[b := f]);
    }

    method Rekey(b: nat, key: Key)
      requires Valid() && b < nb && buf[b].Free()
      requires forall c :: 0 <= c < nb ==> buf[c].key != key
      modifies this`at, buf
      ensures Valid()
      ensures buf[..] == old(buf[..])[b := Buf(key, 1, false, false, false, old(buf[b]).data)]
    {
      ghost var m := M();
      SetRecycled(m, b, key);
      KeysAfterRekey(m.bufs, pos, b, Buf(key, 1, false, false, false, buf[b].data));
      at := if buf[b].valid then at - {buf[b].key} else at;
      buf[b] := Buf(key, 1, false, false, false, buf[b].data);
      assert buf[..] == m.bufs[b := buf[b]];
    }

    /** acquiresleep(&b->lock) by a process that bget gave b to. */
    method Lock(b: nat)
      requires Valid() && b < nb && buf[b].refcnt > 0 && !buf[b].locked
      modifies this`disk, this`view, this`at, this`unsaved, buf
      ensures Valid() && M() == old(M()).(bufs := old(buf[..])[b := old(buf[b]).(locked := true)])
    {
      ghost var m := M();
      var f := buf[b].(locked := true);
      assert BufOk(m, b, m.bufs[b]);
      SetBuf(m, b, f);
      Store(b, f, disk, m.(bufs := m.bufs[b := f]));
    }

    /** The rest of bread: the holder sees the block's contents in the plain map. */
    method Fill(b: nat)
      requires Valid() && b < nb && buf[b].locked && b !in unsaved && buf[b].key in disk
      modifies this`disk, this`view, this`at, this`unsaved, buf
      ensures Valid() && disk == old(disk) && view == old(view) && unsaved == old(unsaved)
      ensures buf[b].key in view
      ensures buf[..] == old(buf[..])[b := old(buf[b]).(valid := true, data := view[buf[b].key])]
    {
      ghost var m := M();
      assert BufOk(m, b, m.bufs[b]);
      if !buf[b].valid {
        if buf[b].key in at {
          Sole(m.bufs, pos, b, m.at[m.bufs[b].key]);
        }
        SetFilled(m, b);
        var f := buf[b].(valid := true, data := disk[buf[b].key]);       // iderw
        Store(b, f, disk, m.(bufs := m.bufs[b := f], at := m.at[f.key := b]));
      }
    }

    /** The holder changes the buffer's data. */
    method Modify(b: nat, data: Data)
      requires Valid() && b < nb && buf[b].locked && buf[b].valid
      modifies this`disk, this`view, this`at, this`unsaved, buf
      ensures Valid()
      ensures M() == old(M()).(bufs := old(buf[..])[b := old(buf[b]).(data := data)], unsaved := old(unsaved) + {b})
    {
      ghost var m := M();
      var f := buf[b].(data := data);
      SetUnsaved(m, b, data);
      Store(b, f, disk, m.(bufs := m.bufs[b := f], unsaved := m.unsaved + {b}));
    }

    /** bwrite: the plain map and the disk both get the data. */
    method BWrite(b: nat)
      requires Valid() && b < nb && buf[b].locked && buf[b].valid
      modifies this`disk, this`view, this`at, this`unsaved, buf
      ensures Valid()
      ensures var f := old(buf[b]).(dirty := false);
        M() == old(M()).(bufs := old(buf[..])[b := f], disk := old(disk)[f.key := f.data],
                         view := old(view)[f.key := f.data], unsaved := old(unsaved) - {b})
    {
      ghost var m := M();
      var f := buf[b].(dirty := false);                                  // iderw
      SetWritten(m, b);
      Store(b, f, disk[f.key := f.data],
            m.(bufs := m.bufs[b := f], disk := m.disk[f.key := f.data], view := m.view[f.key := f.data],
               unsaved := m.unsaved - {b}));
    }

    /** What log_write does to the buffer: the plain map gets the data, the disk does not,
        and B_DIRTY keeps the buffer from being recycled. */
    method MarkDirty(b: nat)
      requires Valid() && b < nb && buf[b].locked && buf[b].valid
      modifies this`disk, this`view, this`at, this`unsaved, buf
      ensures Valid()
      ensures var f := old(buf[b]).(dirty := true);
        M() == old(M()).(bufs := old(buf[..])[b := f], view := old(view)[f.key := f.data],
            unsaved := old(unsaved) - {b})
    {
      ghost var m := M();
      var f := buf[b].(dirty := true);
      SetDirty(m, b);
      Store(b, f, disk, m.(bufs := m.bufs[b := f], view := m.view[f.key := f.data], unsaved := m.unsaved - {b}));
    }

    /** brelse of a buffer whose changes were logged or written: the last reference moves it
        to the front of the list. */
    method BRelse(b: nat)
      requires Valid() && b < nb && buf[b].locked && b !in unsaved
      modifies this, next, prev, buf
      ensures Valid() && old(buf[b]).refcnt > 0
      ensures M() == old(M()).(bufs := old(buf[..])[b := old(buf[b]).(locked := false,
          refcnt := old(buf[b]).refcnt - 1)])
      ensures buf[b].refcnt > 0 ==> order == old(order) && stamp == old(stamp)
      ensures buf[b].refcnt == 0 ==>
        && order == MoveToFront(old(order), old(pos)[b])
        && (forall c :: 0 <= c < nb && c != b ==> stamp[c] == old(stamp)[c] && stamp[c] < stamp[b])
    {
      ghost var m := M();
      assert BufOk(m, b, m.bufs[b]);
      var f := buf[b].(locked := false, refcnt := buf[b].refcnt - 1);   // releasesleep, refcnt--
      SetBuf(m, b, f);
      FirstOfKey(m.bufs, pos, b);
      Store(b, f, disk, m.(bufs := m.bufs[b := f]));
      if buf[b].refcnt == 0 {
        ToFront(b);
      }
    }

    /** Unlink b and put it behind the head, as the most recently released. */
    method ToFront(b: nat)
      requires ListInv() && buf.Length == nb && KeysOk(buf[..], pos) && b < nb
      requires forall c :: 0 <= c < nb && pos[c] < pos[b] ==> buf[c].key != buf[b].key
      modifies this`order, this`pos, this`stamp, this`clock, next, prev
      ensures ListInv() && KeysOk(buf[..], pos)
      ensures order == MoveToFront(old(order), old(pos)[b])
      ensures forall c :: 0 <= c < nb && c != b ==> stamp[c] == old(stamp)[c] && stamp[c] < stamp[b]
    {
      MoveKeepsLists(nb, order, pos, b);
      MoveKeepsOrder(pos, stamp, clock, b);
      KeysAfterMove(buf[..], pos, b);
      Relink(b, order, pos[b]);
      order := MoveToFront(order, pos[b]);
      pos := MovePos(pos, b);
      clock := clock + 1;
      stamp := stamp[b := clock];
    }

    method Relink(b: nat, ghost o: seq<nat>, ghost k: nat)
      requires Links(o) && k < |o| && o[k] == b
      modifies next, prev
      ensures Links(MoveToFront(o, k))
    {
      Unlink(b, o, k);
      PushFront(b, o[..k] + o[k + 1..]);
    }
  }
}
