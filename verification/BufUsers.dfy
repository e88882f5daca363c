/** The users of the buffer cache (bio.c): any number of processes that look blocks up, wait for
    sleep locks, read, change, log, write and release, interleaved.

    Each step is a section under bcache.lock, the acquisition or release of one sleep lock, or
    something its holder does. */
module BufUsers {
  import opened BufCache

  /** One call of bget by a process, until brelse; a process may have several at once. */
  datatype User = User(pid: nat, call: nat)

  datatype Holder = Nobody | By(p: User)

  /** A buffer with the user that holds its sleep lock. */
  datatype Slot = Slot(key: Key, refcnt: nat, valid: bool, dirty: bool, data: Data, holder: Holder) {
    predicate Idle() { refcnt == 0 && !valid && !dirty }
    /** May be recycled for another block. */
    predicate Free() { refcnt == 0 && !dirty }
  }

  /** Between bget's two locks; locked; bread has returned; between brelse's two locks. */
  datatype Phase = Waiting | Locked | Reading | Leaving

  /** What a user does with buffer b, which it asked for as key. */
  datatype Use = Use(b: nat, key: Key, phase: Phase, changed: bool) {
    predicate Holds() { phase == Locked || phase == Reading }
  }

  /** pos is where each buffer is in the list; view is the plain block map that cache and disk present together. */
  datatype State = State(slots: seq<Slot>, pos: seq<nat>, users: map<User, Use>, disk: map<Key, Data>,
                         view: map<Key, Data>)

  datatype Step =
    | Hit(p: User, key: Key, b: nat)
    | Miss(p: User, key: Key, b: nat)
    | Lock(p: User)
    | Fill(p: User)
    | Change(p: User, d: Data)
    | LogWrite(p: User)
    | BWrite(p: User)
    | Unlock(p: User)
    | Unref(p: User)

  predicate Uses(s: State, p: User, phase: Phase) {
    p in s.users && s.users[p].phase == phase && s.users[p].b < |s.slots|
  }

  /** bget's first scan stops at the first buffer in the list with the key, its second one at the last that is free. */
  predicate Enabled(s: State, st: Step) {
    |s.pos| == |s.slots| &&
    match st
    case Hit(p, key, b) =>
      && p !in s.users && key in s.disk && b < |s.slots| && s.slots[b].key == key
      && forall c :: 0 <= c < |s.slots| && s.pos[c] < s.pos[b] ==> s.slots[c].key != key
    case Miss(p, key, b) =>
      && p !in s.users && key in s.disk && b < |s.slots| && s.slots[b].Free()
      && (forall c :: 0 <= c < |s.slots| ==> s.slots[c].key != key)
      && forall c :: 0 <= c < |s.slots| && s.pos[c] > s.pos[b] ==> !s.slots[c].Free()
    case Lock(p) => Uses(s, p, Waiting) && s.slots[s.users[p].b].holder == Nobody
    case Fill(p) => Uses(s, p, Locked) && s.slots[s.users[p].b].key in s.disk
    case Change(p, _) => Uses(s, p, Reading)
    case LogWrite(p) => Uses(s, p, Reading)
    case BWrite(p) => Uses(s, p, Reading)
    case Unlock(p) => Uses(s, p, Reading) && !s.users[p].changed
    case Unref(p) => Uses(s, p, Leaving) && s.slots[s.users[p].b].refcnt > 0
  }

  function Next(s: State, st: Step): State
    requires Enabled(s, st)
  {
    match st
    case Hit(p, key, b) =>
      var f := s.slots[b];
      s.(slots := s.slots[b := f.(refcnt := f.refcnt + 1)], users := s.users[p := Use(b, key, Waiting, false)])
    case Miss(p, key, b) =>
      s.(slots := s.slots[b := Slot(key, 1, false, false, s.slots[b].data, s.slots[b].holder)],
         users := s.users[p := Use(b, key, Waiting, false)])
    case Lock(p) =>
      var u := s.users[p];
      s.(slots := s.slots[u.b := s.slots[u.b].(holder := By(p))], users := s.users[p := u.(phase := Locked)])
    case Fill(p) =>
      var u := s.users[p];
      var f := s.slots[u.b];
      s.(slots := s.slots[u.b := if f.valid then f else f.(valid := true, data := s.disk[f.key])],
         users := s.users[p := u.(phase := Reading)])
    case Change(p, d) =>
      var u := s.users[p];
      s.(slots := s.slots[u.b := s.slots[u.b].(data := d)], users := s.users[p := u.(changed := true)])
    case LogWrite(p) =>
      var u := s.users[p];
      var f := s.slots[u.b];
      s.(slots := s.slots[u.b := f.(dirty := true)], users := s.users[p := u.(changed := false)],
          view := s.view[f.key := f.data])
    case BWrite(p) =>
      var u := s.users[p];
      var f := s.slots[u.b];
      s.(slots := s.slots[u.b := f.(dirty := false)], users := s.users[p := u.(changed := false)],
         view := s.view[f.key := f.data], disk := s.disk[f.key := f.data])
    case Unlock(p) =>
      var u := s.users[p];
      s.(slots := s.slots[u.b := s.slots[u.b].(holder := Nobody)], users := s.users[p := u.(phase := Leaving)])
    case Unref(p) =>
      var u := s.users[p];
      var f := s.slots[u.b];
      s.(slots := s.slots[u.b := f.(refcnt := f.refcnt - 1)], users := s.users - {p},
         pos := if f.refcnt == 1 then MovePos(s.pos, u.b) else s.pos)
  }

  // What every step keeps.

  /** The users that count in b->refcnt. */
  ghost function Refs(users: map<User, Use>, b: nat): set<User> { set p | p in users && users[p].b == b }

  /** The buffer a user looked up still carries its key, and it holds the lock if it thinks so. */
  predicate UserOk(s: State, p: User, u: Use) {
    && u.b < |s.slots| && s.slots[u.b].key == u.key && u.key in s.disk
    && (u.Holds() ==> s.slots[u.b].holder == By(p)) && (u.phase == Reading ==> s.slots[u.b].valid)
    && (u.changed ==> u.phase == Reading)
  }

  ghost predicate SlotOk(s: State, b: nat)
    requires b < |s.slots|
  {
    var f := s.slots[b];
    && f.refcnt == |Refs(s.users, b)|
    && (f.holder.By? ==> f.holder.p in s.users && s.users[f.holder.p].b == b && s.users[f.holder.p].Holds())
    && (f.dirty ==> f.valid)
    && (f.valid ==> f.key in s.disk && f.key in s.view)
    && (f.valid && !Changing(s, f) ==> f.data == s.view[f.key])
    && (f.valid && !f.dirty ==> s.view[f.key] == s.disk[f.key])
  }

  predicate Changing(s: State, f: Slot) { f.holder.By? && f.holder.p in s.users && s.users[f.holder.p].changed }

  /** No two buffers are at the same place, and of two with one key the later is idle. */
  ghost predicate KeysApart(s: State) {
    && |s.pos| == |s.slots| && (forall b, c :: 0 <= b < |s.pos| && 0 <= c < |s.pos| && b != c ==> s.pos[b] != s.pos[c])
    && forall b, c :: 0 <= b < |s.pos| && 0 <= c < |s.pos| && s.pos[b] < s.pos[c] ==>
         s.slots[b].key != s.slots[c].key || s.slots[c].Idle()
  }

  ghost predicate Cached(s: State,
          key: Key) { exists b :: 0 <= b < |s.slots| && s.slots[b].valid && s.slots[b].key == key }

  ghost predicate Inv(s: State) {
    && s.view.Keys == s.disk.Keys && KeysApart(s)
    && (forall p :: p in s.users ==> UserOk(s, p, s.users[p]))
    && (forall b :: 0 <= b < |s.slots| ==> SlotOk(s, b))
    && (forall key :: key in s.disk && !Cached(s, key) ==> s.view[key] == s.disk[key])
  }

  lemma RefsHas(users: map<User, Use>, p: User)
    requires p in users
    ensures p in Refs(users, users[p].b) && |Refs(users, users[p].b)| >= 1
  {
    assert {p} <= Refs(users, users[p].b);
  }

  /** A user that comes, stays at its buffer, or goes. */
  lemma RefsSet(users: map<User, Use>, p: User, u: Use, b: nat)
    requires p in users ==> users[p].b == u.b
    ensures |Refs(users[p := u], b)| == |Refs(users, b)| + if p !in users && b == u.b then 1 else 0
  {
    var r, r' := Refs(users, b), Refs(users[p := u], b);
    forall x ensures x in r' <==> x in r || (x == p && b == u.b) {
    }
    hide Refs;
    if b == u.b && p !in users {
      assert r' == r + {p};
    } else {
      assert r' == r;
    }
  }

  lemma RefsGone(users: map<User, Use>, p: User, b: nat)
    requires p in users
    ensures |Refs(users - {p}, b)| == |Refs(users, b)| - if users[p].b == b then 1 else 0
  {
    var r, r' := Refs(users, b), Refs(users - {p}, b);
    assert r' == r - {p};
  }

  /** Nobody uses a buffer without references. */
  lemma Unreferenced(s: State, b: nat)
    requires Inv(s) && b < |s.slots| && s.slots[b].refcnt == 0
    ensures s.slots[b].holder == Nobody && forall p :: p in s.users ==> s.users[p].b != b
  {
    assert SlotOk(s, b);
    forall p | p in s.users ensures s.users[p].b != b {
      RefsHas(s.users, p);
    }
  }

  /** Two buffers that are both in use have different keys. */
  lemma OneBuffer(s: State, b: nat, c: nat)
    requires Inv(s) && b < |s.slots| && c < |s.slots| && b != c && !s.slots[b].Idle() && !s.slots[c].Idle()
    ensures s.slots[b].key != s.slots[c].key
  {
    assert s.pos[b] != s.pos[c];
  }

  lemma OtherIdle(s: State, b: nat, c: nat)
    requires Inv(s) && b < |s.slots| && c < |s.slots| && b != c && !s.slots[b].Idle()
    requires s.slots[b].key == s.slots[c].key
    ensures s.slots[c].Idle()
  {
    assert s.pos[b] != s.pos[c];
  }

  /** A step changes one buffer and one user, and never moves a user to another buffer. */
  lemma StepShape(s: State, st: Step)
    requires Inv(s) && Enabled(s, st)
    ensures var t := Next(s, st);
      && |t.slots| == |s.slots| && Touched(s, st) < |s.slots|
      && t.slots == s.slots[Touched(s, st) := t.slots[Touched(s, st)]]
      && t.disk.Keys == s.disk.Keys && t.view.Keys == s.view.Keys
      && (forall p :: p != st.p ==> (p in t.users <==> p in s.users) && (p in s.users ==> t.users[p] == s.users[p]))
  {
    if !st.Hit? && !st.Miss? {
      assert UserOk(s, st.p, s.users[st.p]);
      assert SlotOk(s, s.users[st.p].b);
    }
    hide Inv, KeysApart, Cached, Refs;
  }

  function Touched(s: State, st: Step): nat
    requires Enabled(s, st)
  {
    if st.Hit? || st.Miss? then st.b else s.users[st.p].b
  }

  /** Nobody before b in the list has its key. */
  ghost predicate FirstOf(s: State, b: nat) {
    |s.pos| == |s.slots| && b < |s.slots| &&
    forall c :: 0 <= c < |s.slots| && s.pos[c] < s.pos[b] ==> s.slots[c].key != s.slots[b].key
  }

  lemma TouchedFirst(s: State, st: Step)
    requires Inv(s) && Enabled(s, st) && !st.Miss?
    ensures FirstOf(s, Touched(s, st))
  {
    if !st.Hit? {
      var b := Touched(s, st);
      assert UserOk(s, st.p, s.users[st.p]);
      RefsHas(s.users, st.p);
      assert SlotOk(s, b) && !s.slots[b].Idle();
    }
  }

  lemma KeysSame(s: State, b: nat, f: Slot)
    requires KeysApart(s) && FirstOf(s, b) && f.key == s.slots[b].key
    ensures KeysApart(s.(slots := s.slots[b := f]))
  {
  }

  lemma KeysNew(s: State, b: nat, f: Slot)
    requires KeysApart(s) && b < |s.slots| && forall c :: 0 <= c < |s.slots| ==> s.slots[c].key != f.key
    ensures KeysApart(s.(slots := s.slots[b := f]))
  {
  }

  lemma KeysMoved(s: State, b: nat)
    requires KeysApart(s) && FirstOf(s, b)
    ensures KeysApart(s.(pos := MovePos(s.pos, b)))
  {
  }

  lemma StepKeys(s: State, st: Step)
    requires Inv(s) && Enabled(s, st)
    ensures KeysApart(Next(s, st))
  {
    StepShape(s, st);
    StepPos(s, st);
    var t, b := Next(s, st), Touched(s, st);
    var m := s.(slots := s.slots[b := t.slots[b]]);
    if st.Miss? {
      KeysNew(s, b, t.slots[b]);
    } else {
      TouchedFirst(s, st);
      StepKey(s, st);
      KeysSame(s, b, t.slots[b]);
      assert FirstOf(m, b);
      KeysMoved(m, b);
    }
    hide KeysApart;
    SamePlaces(if t.pos == s.pos then m else m.(pos := MovePos(s.pos, b)), t);
  }

  lemma SamePlaces(s: State, t: State)
    requires KeysApart(s) && t.slots == s.slots && t.pos == s.pos
    ensures KeysApart(t)
  {
  }

  lemma StepKey(s: State, st: Step)
    requires Inv(s) && Enabled(s, st) && !st.Miss?
    ensures Touched(s, st) < |s.slots| && |Next(s, st).slots| == |s.slots|
    ensures Next(s, st).slots[Touched(s, st)].key == s.slots[Touched(s, st)].key
  {
    StepShape(s, st);
    hide Inv;
  }

  lemma StepPos(s: State, st: Step)
    requires Enabled(s, st) && Touched(s, st) < |s.pos|
    ensures var t := Next(s, st); t.pos == s.pos || t.pos == MovePos(s.pos, Touched(s, st))
    ensures st.Miss? ==> Next(s, st).pos == s.pos
  {
  }

  lemma StepUsers(s: State, st: Step, p: User)
    requires Inv(s) && Enabled(s, st) && p in Next(s, st).users
    ensures UserOk(Next(s, st), p, Next(s, st).users[p])
  {
    if p == st.p {
      StepUser(s, st);
    } else {
      StepShape(s, st);
      if st.Miss? {
        Unreferenced(s, st.b);
      }
      assert UserOk(s, p, s.users[p]);
      if !st.Hit? && !st.Miss? {
        assert UserOk(s, st.p, s.users[st.p]);
      }
      hide SlotOk, KeysApart, Cached, Inv, Refs;
      OtherUser(s, st, p);
    }
  }

  lemma StepUser(s: State, st: Step)
    requires Inv(s) && Enabled(s, st) && st.p in Next(s, st).users
    ensures UserOk(Next(s, st), st.p, Next(s, st).users[st.p])
  {
    if !st.Hit? && !st.Miss? {
      assert UserOk(s, st.p, s.users[st.p]);
    }
    hide SlotOk, KeysApart, Cached, Refs, Inv;
  }

  /** Another user may wait for the buffer touched, but it does not hold it. */
  lemma OtherUser(s: State, st: Step, p: User)
    requires Enabled(s, st) && p in s.users && p != st.p && UserOk(s, p, s.users[p])
    requires !st.Hit? && !st.Miss? ==> UserOk(s, st.p, s.users[st.p])
    requires st.Miss? ==> s.users[p].b != st.b
    ensures p in Next(s, st).users && Next(s, st).users[p] == s.users[p] && UserOk(Next(s, st), p, s.users[p])
  {
  }

  lemma StepRefs(s: State, st: Step, b: nat)
    requires Inv(s) && Enabled(s, st) && b < |s.slots|
    ensures |Next(s, st).slots| == |s.slots| && Next(s, st).slots[b].refcnt == |Refs(Next(s, st).users, b)|
  {
    StepShape(s, st);
    assert SlotOk(s, b);
    var t := Next(s, st);
    hide UserOk, KeysApart, Cached, Refs;
    if st.Unref? {
      RefsGone(s.users, st.p, b);
    } else {
      RefsSet(s.users, st.p, t.users[st.p], b);
    }
    if st.Miss? {
      assert SlotOk(s, st.b);
    }
  }

  lemma StepSlots(s: State, st: Step, b: nat)
    requires Inv(s) && Enabled(s, st) && b < |s.slots|
    ensures |Next(s, st).slots| == |s.slots| && SlotOk(Next(s, st), b)
  {
    StepShape(s, st);
    StepRefs(s, st, b);
    if st.Miss? {
      Unreferenced(s, st.b);
    }
    if b != Touched(s, st) {
      StepOther(s, st, b);
    } else if st.Hit? || st.Miss? {
      assert SlotOk(s, b);
      hide KeysApart, Cached, Refs, UserOk;
    } else {
      StepSame(s, st);
    }
  }

  /** A buffer that the step does not touch. */
  lemma StepOther(s: State, st: Step, b: nat)
    requires Inv(s) && Enabled(s, st) && b < |s.slots| && b != Touched(s, st)
    requires |Next(s, st).slots| == |s.slots| && Next(s, st).slots[b].refcnt == |Refs(Next(s, st).users, b)|
    ensures SlotOk(Next(s, st), b)
  {
    StepShape(s, st);
    var t, c := Next(s, st), Touched(s, st);
    assert SlotOk(s, b) && t.slots[b] == s.slots[b];
    if !st.Hit? && !st.Miss? {
      assert UserOk(s, st.p, s.users[st.p]) && SlotOk(s, c);
      RefsHas(s.users, st.p);
      if s.slots[b].valid {
        OneBuffer(s, b, c);
      }
    }
    OtherHolder(s, st, b);
    OtherBlock(s, st, b);
    hide KeysApart, Cached, Refs, UserOk, Next, Inv;
  }

  lemma OtherHolder(s: State, st: Step, b: nat)
    requires Inv(s) && Enabled(s, st) && b < |s.slots| && b != Touched(s, st)
    ensures var f, t := s.slots[b], Next(s, st);
      && (Changing(t, f) <==> Changing(s, f))
      && (f.holder.By? ==> f.holder.p in t.users && t.users[f.holder.p].b == b && t.users[f.holder.p].Holds())
  {
    StepShape(s, st);
    assert SlotOk(s, b);
    hide KeysApart, Cached, Refs;
  }

  /** The blocks that other buffers hold are the same in the cache and on the disk. */
  lemma OtherBlock(s: State, st: Step, b: nat)
    requires Inv(s) && Enabled(s, st) && b < |s.slots|
    requires !st.Hit? && !st.Miss? && s.slots[b].valid ==> s.slots[b].key != s.slots[s.users[st.p].b].key
    ensures var f, t := s.slots[b], Next(s, st);
      f.valid ==> f.key in t.disk && f.key in t.view && t.view[f.key] == s.view[f.key] && t.disk[f.key] == s.disk[f.key]
  {
    assert SlotOk(s, b);
    hide KeysApart, Cached, Refs, UserOk;
  }

  /** The buffer of the user that moves. */
  lemma StepSame(s: State, st: Step)
    requires Inv(s) && Enabled(s, st) && !st.Hit? && !st.Miss?
    requires var b := s.users[st.p].b;
      |Next(s, st).slots| == |s.slots| && Next(s, st).slots[b].refcnt == |Refs(Next(s, st).users, b)|
    ensures SlotOk(Next(s, st), s.users[st.p].b)
  {
    var b := s.users[st.p].b;
    assert UserOk(s, st.p, s.users[st.p]) && SlotOk(s, b);
    RefsHas(s.users, st.p);
    if st.Fill? && !s.slots[b].valid {
      FillsView(s, b);
    }
    hide Inv;
    if st.Lock? || st.Unlock? || st.Unref? {
      LockedSame(s, st, b);
    } else {
      DataSame(s, st, b);
    }
  }

  lemma LockedSame(s: State, st: Step, b: nat)
    requires Enabled(s, st) && (st.Lock? || st.Unlock? || st.Unref?) && b == s.users[st.p].b
    requires UserOk(s, st.p, s.users[st.p]) && SlotOk(s, b)
    requires |Next(s, st).slots| == |s.slots| && Next(s, st).slots[b].refcnt == |Refs(Next(s, st).users, b)|
    ensures SlotOk(Next(s, st), b)
  {
    hide Refs;
  }

  lemma DataSame(s: State, st: Step, b: nat)
    requires Enabled(s, st) && (st.Fill? || st.Change? || st.LogWrite? || st.BWrite?) && b == s.users[st.p].b
    requires UserOk(s, st.p, s.users[st.p]) && SlotOk(s, b) && s.view.Keys == s.disk.Keys
    requires st.Fill? && !s.slots[b].valid ==> s.view[s.slots[b].key] == s.disk[s.slots[b].key]
    requires |Next(s, st).slots| == |s.slots| && Next(s, st).slots[b].refcnt == |Refs(Next(s, st).users, b)|
    ensures SlotOk(Next(s, st), b)
  {
    hide Refs;
  }

  /** A block that is not valid in its buffer is valid in none, so the disk has it. */
  lemma FillsView(s: State, b: nat)
    requires Inv(s) && b < |s.slots| && s.slots[b].refcnt > 0 && !s.slots[b].valid && s.slots[b].key in s.disk
    ensures s.slots[b].key in s.view && s.view[s.slots[b].key] == s.disk[s.slots[b].key]
  {
    var key := s.slots[b].key;
    if Cached(s, key) {
      var c :| 0 <= c < |s.slots| && s.slots[c].valid && s.slots[c].key == key;
      OneBuffer(s, b, c);
      assert false;
    }
  }

  /** A block stays in the cache unless the buffer touched is the one it is in. */
  lemma StillCached(s: State, st: Step, key: Key)
    requires Inv(s) && Enabled(s, st)
    ensures Touched(s, st) < |s.slots| && |Next(s, st).slots| == |s.slots|
    ensures var f, f' := s.slots[Touched(s, st)], Next(s, st).slots[Touched(s, st)];
      Cached(s, key) ==> Cached(Next(s, st), key) || (f.valid && f.key == key && !(f'.valid && f'.key == key))
    ensures var f' := Next(s, st).slots[Touched(s, st)]; f'.valid && f'.key == key ==> Cached(Next(s, st), key)
  {
    StepShape(s, st);
    var t, b := Next(s, st), Touched(s, st);
    hide SlotOk, UserOk, KeysApart, Next;
    if Cached(s, key) {
      var c :| 0 <= c < |s.slots| && s.slots[c].valid && s.slots[c].key == key;
      assert c == b || t.slots[c] == s.slots[c];
    }
  }

  lemma StepDisk(s: State, st: Step, key: Key)
    requires Inv(s) && Enabled(s, st) && key in Next(s, st).disk && !Cached(Next(s, st), key)
    ensures key in Next(s, st).view && Next(s, st).view[key] == Next(s, st).disk[key]
  {
    StepShape(s, st);
    StillCached(s, st, key);
    assert SlotOk(s, Touched(s, st));
    if !st.Hit? && !st.Miss? {
      assert UserOk(s, st.p, s.users[st.p]);
    }
    hide Cached, KeysApart, Refs;
  }

  lemma StepKeepsInv(s: State, st: Step)
    requires Inv(s) && Enabled(s, st)
    ensures Inv(Next(s, st))
  {
    StepShape(s, st);
    StepKeys(s, st);
    var t := Next(s, st);
    hide SlotOk, UserOk, KeysApart, Cached, Next;
    forall p | p in t.users ensures UserOk(t, p, t.users[p]) {
      StepUsers(s, st, p);
    }
    forall b | 0 <= b < |t.slots| ensures SlotOk(t, b) {
      StepSlots(s, st, b);
    }
    forall key | key in t.disk && !Cached(t, key) ensures t.view[key] == t.disk[key] {
      StepDisk(s, st, key);
    }
  }

  /** The cache after boot: buffers without references or data, in front of any disk. */
  predicate Boot(s: State) {
    && s.users == map[] && s.view == s.disk && |s.pos| == |s.slots|
    && (forall b, c :: 0 <= b < |s.pos| && 0 <= c < |s.pos| && b != c ==> s.pos[b] != s.pos[c])
    && forall b :: 0 <= b < |s.slots| ==> s.slots[b].Idle() && s.slots[b].holder == Nobody
  }

  predicate Run(s: State, steps: seq<Step>, t: State)
    decreases |steps|
  {
    if steps == [] then s == t else Enabled(s, steps[0]) && Run(Next(s, steps[0]), steps[1..], t)
  }

  lemma {:induction false} RunKeepsInv(s: State, steps: seq<Step>, t: State)
    requires Inv(s) && Run(s, steps, t)
    ensures Inv(t)
    decreases |steps|
  {
    if steps != [] {
      StepKeepsInv(s, steps[0]);
      hide Inv;
      RunKeepsInv(Next(s, steps[0]), steps[1..], t);
    }
  }

  lemma BootInv(s: State)
    requires Boot(s)
    ensures Inv(s)
  {
    forall b | 0 <= b < |s.slots| ensures SlotOk(s, b) {
      assert Refs(s.users, b) == {};
    }
  }

  /** Both users hold the block that they asked for, and it is the same block. */
  predicate BothHold(s: State, p: User, q: User) {
    p in s.users && q in s.users && s.users[p].Holds() && s.users[q].Holds() && s.users[p].key == s.users[q].key
  }

  /**
   * In every interleaving: when bget gets the sleep lock the buffer still carries the key it
   * looked up; a block has at most one holder, whichever buffer it is in; what bread
   * returned is the block of the plain map until its holder changes it; and a reference
   * count is the number of users between bget and the end of brelse.
   */
  lemma UsersSafe(s: State, steps: seq<Step>, t: State)
    requires Boot(s) && Run(s, steps, t)
    ensures forall p :: p in t.users ==> t.users[p].b < |t.slots| && t.slots[t.users[p].b].key == t.users[p].key
    ensures forall p, q :: BothHold(t, p, q) ==> p == q
    ensures forall p :: Uses(t, p, Reading) && !t.users[p].changed ==>
      t.users[p].key in t.view && t.slots[t.users[p].b].data == t.view[t.users[p].key]
    ensures forall b :: 0 <= b < |t.slots| ==> t.slots[b].refcnt == |Refs(t.users, b)|
  {
    BootInv(s);
    RunKeepsInv(s, steps, t);
    forall p, q | BothHold(t, p, q)
      ensures p == q
    {
      OneHolder(t, p, q);
    }
    forall p | Uses(t, p, Reading) && !t.users[p].changed
      ensures t.users[p].key in t.view && t.slots[t.users[p].b].data == t.view[t.users[p].key]
    {
      assert UserOk(t, p, t.users[p]) && SlotOk(t, t.users[p].b);
    }
    forall b | 0 <= b < |t.slots| ensures t.slots[b].refcnt == |Refs(t.users, b)| {
      assert SlotOk(t, b);
    }
  }

  lemma OneHolder(s: State, p: User, q: User)
    requires Inv(s) && p in s.users && q in s.users && s.users[p].Holds() && s.users[q].Holds()
    requires s.users[p].key == s.users[q].key
    ensures p == q
  {
    var b, c := s.users[p].b, s.users[q].b;
    assert UserOk(s, p, s.users[p]) && UserOk(s, q, s.users[q]);
    assert SlotOk(s, b) && SlotOk(s, c);
    RefsHas(s.users, p);
    RefsHas(s.users, q);
    if b != c {
      OneBuffer(s, b, c);
    }
  }

  /** The panics of bwrite and brelse, and an underflow in brelse, never come. */
  lemma NoPanic(s: State, steps: seq<Step>, t: State, p: User)
    requires Boot(s) && Run(s, steps, t) && p in t.users
    ensures Uses(t, p, Reading) ==> t.slots[t.users[p].b].holder == By(p)
    ensures Uses(t, p, Leaving) ==> Enabled(t, Unref(p))
  {
    BootInv(s);
    RunKeepsInv(s, steps, t);
    assert UserOk(t, p, t.users[p]) && SlotOk(t, t.users[p].b);
    RefsHas(t.users, p);
  }
}
