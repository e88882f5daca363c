/** The buffer cache (bio.c) as its users see it: a plain store, without buffers, disk or list. */
module BufStore {
  import opened BufCache
  import opened BufUsers

  /** blocks is the store; asked and pending are the block each user asked for and what it has written into it so
      far without logging or writing it. */
  datatype Store = Store(blocks: map<Key, Data>, asked: map<User, Key>, pending: map<User, Data>)

  function Apply(r: Store, st: Step): Store {
    match st
    case Hit(p, key, _) => r.(asked := r.asked[p := key], pending := r.pending - {p})
    case Miss(p, key, _) => r.(asked := r.asked[p := key], pending := r.pending - {p})
    case Change(p, d) => r.(pending := r.pending[p := d])
    case LogWrite(p) => Commit(r, p)
    case BWrite(p) => Commit(r, p)
    case _ => r
  }

  function Commit(r: Store, p: User): Store {
    if p in r.pending && p in r.asked
    then r.(blocks := r.blocks[r.asked[p] := r.pending[p]], pending := r.pending - {p}) else r
  }

  function ApplyAll(r: Store, steps: seq<Step>): Store
    decreases |steps|
  {
    if steps == [] then r else ApplyAll(Apply(r, steps[0]), steps[1..])
  }

  ghost predicate UserAgrees(s: State, r: Store, p: User)
    requires p in s.users
  {
    var u := s.users[p];
    && p in r.asked && r.asked[p] == u.key && (u.changed <==> p in r.pending)
    && (u.changed ==> u.b < |s.slots| && s.slots[u.b].data == r.pending[p])
  }

  ghost predicate Agrees(s: State, r: Store) {
    s.view == r.blocks && forall p :: p in s.users ==> UserAgrees(s, r, p)
  }

  lemma StepAgrees(s: State, r: Store, st: Step)
    requires Inv(s) && Enabled(s, st) && Agrees(s, r)
    ensures Agrees(Next(s, st), Apply(r, st))
  {
    var t, r' := Next(s, st), Apply(r, st);
    StepView(s, r, st);
    forall p | p in t.users ensures UserAgrees(t, r', p) {
      if p == st.p { OwnUser(s, r, st); } else { OtherUser(s, r, st, p); }
    }
  }

  lemma StepView(s: State, r: Store, st: Step)
    requires Inv(s) && Enabled(s, st) && Agrees(s, r)
    ensures Next(s, st).view == Apply(r, st).blocks
  {
    hide Refs, KeysApart, Cached;
    if st.LogWrite? || st.BWrite? {
      assert UserAgrees(s, r, st.p) && UserOk(s, st.p, s.users[st.p]) && SlotOk(s, s.users[st.p].b);
      hide Inv, Agrees;
    }
  }

  lemma OwnUser(s: State, r: Store, st: Step)
    requires Inv(s) && Enabled(s, st) && Agrees(s, r) && st.p in Next(s, st).users
    ensures UserAgrees(Next(s, st), Apply(r, st), st.p)
  {
    hide Refs, KeysApart, Cached, SlotOk;
    if st.p in s.users {
      assert UserAgrees(s, r, st.p) && UserOk(s, st.p, s.users[st.p]);
    }
  }

  /** A step of one user does not touch the buffer that another has changed, which it holds. */
  lemma OtherUser(s: State, r: Store, st: Step, p: User)
    requires Inv(s) && Enabled(s, st) && Agrees(s, r) && p != st.p && p in s.users
    ensures p in Next(s, st).users && UserAgrees(Next(s, st), Apply(r, st), p)
  {
    assert UserAgrees(s, r, p) && UserOk(s, p, s.users[p]);
    if !st.Hit? && !st.Miss? {
      assert UserOk(s, st.p, s.users[st.p]);
    }
    hide Inv, Agrees, Refs, KeysApart, Cached, SlotOk;
    UserKept(s, st, p);
    OthersKept(r, st, p);
    hide Next, Apply, Commit, Enabled;
  }

  lemma UserKept(s: State, st: Step, p: User)
    requires Enabled(s, st) && p != st.p && p in s.users && UserOk(s, p, s.users[p])
    requires !st.Hit? && !st.Miss? ==> UserOk(s, st.p, s.users[st.p])
    ensures p in Next(s, st).users && Next(s, st).users[p] == s.users[p] && |Next(s, st).slots| == |s.slots|
    ensures s.users[p].changed ==> Next(s, st).slots[s.users[p].b].data == s.slots[s.users[p].b].data
  {
  }

  lemma OthersKept(r: Store, st: Step, p: User)
    requires p != st.p
    ensures var r' := Apply(r, st);
      && (p in r'.asked <==> p in r.asked) && (p in r.asked ==> r'.asked[p] == r.asked[p])
      && (p in r'.pending <==> p in r.pending) && (p in r.pending ==> r'.pending[p] == r.pending[p])
  {
  }

  lemma {:induction false} RunAgrees(s: State, r: Store, steps: seq<Step>, t: State)
    requires Inv(s) && Agrees(s, r) && Run(s, steps, t)
    ensures Inv(t) && Agrees(t, ApplyAll(r, steps))
    decreases |steps|
  {
    if steps != [] {
      StepKeepsInv(s, steps[0]);
      StepAgrees(s, r, steps[0]);
      hide Inv, Agrees, Next, Apply;
      RunAgrees(Next(s, steps[0]), Apply(r, steps[0]), steps[1..], t);
    }
  }

  /**
   * In every interleaving the cache is the store: whoever has read a block sees what was last
   * logged or written to it, by whichever user and buffer, or its own later changes.
   */
  lemma CacheIsStore(s: State, steps: seq<Step>, t: State)
    requires Boot(s) && Run(s, steps, t)
    ensures var r := ApplyAll(Store(s.disk, map[], map[]), steps);
      && t.view == r.blocks
      && forall p :: Uses(t, p, Reading) ==>
           && t.users[p].key in r.blocks
           && t.slots[t.users[p].b].data == if p in r.pending then r.pending[p] else r.blocks[t.users[p].key]
  {
    BootInv(s);
    RunAgrees(s, Store(s.disk, map[], map[]), steps, t);
    var r := ApplyAll(Store(s.disk, map[], map[]), steps);
    hide Run, Refs, KeysApart, Cached, ApplyAll;
    forall p | Uses(t, p, Reading)
      ensures t.users[p].key in r.blocks
      ensures t.slots[t.users[p].b].data == if p in r.pending then r.pending[p] else r.blocks[t.users[p].key]
    {
      assert UserAgrees(t, r, p) && UserOk(t, p, t.users[p]) && SlotOk(t, t.users[p].b);
    }
  }
}
