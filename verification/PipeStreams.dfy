/** Whose bytes a pipe (pipe.c) carries: what pipewrite accepts from each process is what the
    process passed, in order, whatever the others do. */
module PipeStreams {
  import opened Pipe

  /** A call of pipewrite and how many of its bytes are in. */
  datatype Book = Book(addr: seq<char>, k: nat)

  /** The process that put in each byte: whoever's section made the contents longer. */
  ghost function Tags(s: State, steps: seq<Step>, t: State, tags: seq<nat>): (r: seq<nat>)
    requires Run(s, steps, t)
    decreases |steps|
  {
    if steps == [] then tags
    else
      var u := Next(s, steps[0]);
      Tags(u, steps[1..], t, tags + New(s, steps[0], u))
  }

  ghost function New(s: State, st: Step, u: State): seq<nat> {
    if st.WriteSection? && |s.c.accepted| <= |u.c.accepted|
    then seq(|u.c.accepted| - |s.c.accepted|, i => st.p) else []
  }

  /** The calls of process p, oldest first; each section moves the last one on by as many bytes as it put in. */
  ghost function Books(s: State, steps: seq<Step>, t: State, p: nat, books: seq<Book>): (r: seq<Book>)
    requires Run(s, steps, t)
    decreases |steps|
  {
    if steps == [] then books
    else
      var u := Next(s, steps[0]);
      Books(u, steps[1..], t, p, Booked(s, steps[0], u, p, books))
  }

  ghost function Booked(s: State, st: Step, u: State, p: nat, books: seq<Book>): seq<Book> {
    if st.StartWrite? && st.p == p then books + [Book(st.addr, 0)]
    else if st.WriteSection? && st.p == p && books != [] && |s.c.accepted| <= |u.c.accepted| then
      var b := books[|books| - 1];
      books[|books| - 1 := Book(b.addr, b.k + |u.c.accepted| - |s.c.accepted|)]
    else books
  }

  /** The bytes with p's tag. */
  function Of(xs: seq<char>, tags: seq<nat>, p: nat): seq<char>
    requires |xs| == |tags|
  {
    if xs == [] then []
    else
      var n := |xs| - 1;
      Of(xs[..n], tags[..n], p) + if tags[n] == p then [xs[n]] else []
  }

  /** What the calls have put in, and all that they were asked to. */
  function Flat(books: seq<Book>): seq<char> {
    if books == [] then []
    else
      var b := books[|books| - 1];
      Flat(books[..|books| - 1]) + if b.k <= |b.addr| then b.addr[..b.k] else b.addr
  }
  function All(books: seq<Book>): seq<char> {
    if books == [] then [] else All(books[..|books| - 1]) + books[|books| - 1].addr
  }

  lemma {:induction false} OfConcat(xs: seq<char>, tx: seq<nat>, ys: seq<char>, ty: seq<nat>, p: nat)
    requires |xs| == |tx| && |ys| == |ty|
    ensures Of(xs + ys, tx + ty, p) == Of(xs, tx, p) + Of(ys, ty, p)
    decreases |ys|
  {
    if ys == [] {
      assert xs + ys == xs && tx + ty == tx;
    } else {
      var n := |ys| - 1;
      assert (xs + ys)[..|xs| + n] == xs + ys[..n] && (tx + ty)[..|xs| + n] == tx + ty[..n];
      OfConcat(xs, tx, ys[..n], ty[..n], p);
    }
  }

  lemma {:induction false} OfSame(xs: seq<char>, tags: seq<nat>, q: nat, p: nat)
    requires |xs| == |tags| && forall i :: 0 <= i < |tags| ==> tags[i] == q
    ensures Of(xs, tags, p) == if q == p then xs else []
  {
    if xs != [] {
      var n := |xs| - 1;
      OfSame(xs[..n], tags[..n], q, p);
      assert xs[..n] + [xs[n]] == xs;
    }
  }

  /** The books of p are right: its open call is the last and stands where the process is. */
  ghost predicate Right(s: State, books: seq<Book>, p: nat) {
    && (forall i :: 0 <= i < |books| ==> books[i].k <= |books[i].addr|)
    && (p in s.calls && s.calls[p].Writing? ==>
          books != [] && books[|books| - 1] == Book(s.calls[p].addr, s.calls[p].i))
  }

  /** What a step does to the contents: only a write section adds bytes, the next ones of its call. */
  lemma StepAdds(s: State, st: Step)
    requires Inv(s) && Enabled(s, st)
    ensures var u := Next(s, st);
      && s.c.accepted <= u.c.accepted
      && (!st.WriteSection? ==> u.c.accepted == s.c.accepted)
      && (st.WriteSection? ==>
            var a, n := s.calls[st.p], |u.c.accepted| - |s.c.accepted|;
            && a.i + n <= |a.addr| && u.c.accepted == s.c.accepted + a.addr[a.i..a.i + n]
            && (st.p in u.calls && u.calls[st.p].Writing? ==> u.calls[st.p] == Writing(a.addr, a.i + n, true))
            && (st.p !in u.calls ==> a.i + n == |a.addr| || st.killed || !s.c.readopen))
  {
    hide WriterRested, WakeReaders, WakeWriters;
  }

  /** The call of a process that does not move stays where it is. */
  lemma OtherCall(s: State, st: Step, p: nat)
    requires Inv(s) && Enabled(s, st) && !(st.WriteSection? && st.p == p) && !(st.StartWrite? && st.p == p)
    ensures var u := Next(s, st);
      && (p in u.calls && u.calls[p].Writing? <==> p in s.calls && s.calls[p].Writing?)
      && (p in s.calls && s.calls[p].Writing? ==>
            p in u.calls && s.calls[p].addr == u.calls[p].addr && s.calls[p].i == u.calls[p].i)
  {
    hide WriterRested;
  }

  lemma StepRight(s: State, st: Step, p: nat, books: seq<Book>)
    requires Inv(s) && Enabled(s, st) && Right(s, books, p)
    ensures Right(Next(s, st), Booked(s, st, Next(s, st), p, books), p)
  {
    StepAdds(s, st);
    hide Inv;
    if !(st.WriteSection? && st.p == p) && !(st.StartWrite? && st.p == p) {
      OtherCall(s, st, p);
    }
  }

  lemma StepFlat(s: State, st: Step, p: nat, books: seq<Book>, tags: seq<nat>)
    requires Inv(s) && Enabled(s, st) && Right(s, books, p) && |tags| == |s.c.accepted|
    requires Of(s.c.accepted, tags, p) == Flat(books)
    ensures var u := Next(s, st);
      && |tags + New(s, st, u)| == |u.c.accepted|
      && Of(u.c.accepted, tags + New(s, st, u), p) == Flat(Booked(s, st, u, p, books))
  {
    StepAdds(s, st);
    var u := Next(s, st);
    if st.WriteSection? {
      var a, n := s.calls[st.p], |u.c.accepted| - |s.c.accepted|;
      NewTags(s, st, u);
      hide Next, Inv, Enabled, Of, Flat, New;
      SectionFlat(s.c.accepted, u.c.accepted, a, n, st.p, p, books, tags, New(s, st, u));
    } else {
      hide Next, Inv, Enabled, Of;
      assert tags + New(s, st, u) == tags;
      if st.StartWrite? && st.p == p {
        assert (books + [Book(st.addr, 0)])[..|books|] == books;
      }
    }
  }

  lemma NewTags(s: State, st: Step, u: State)
    requires st.WriteSection? && |s.c.accepted| <= |u.c.accepted|
    ensures var r := New(s, st, u);
      |r| == |u.c.accepted| - |s.c.accepted| && forall i :: 0 <= i < |r| ==> r[i] == st.p
  {
  }

  lemma {:induction false} SectionFlat(acc: seq<char>, acc': seq<char>, a: Call, n: nat, q: nat, p: nat,
          books: seq<Book>, tags: seq<nat>, ids: seq<nat>)
    requires |ids| == n && forall i :: 0 <= i < n ==> ids[i] == q
    requires a.Writing? && a.i + n <= |a.addr| && acc' == acc + a.addr[a.i..a.i + n]
    requires |tags| == |acc| && Of(acc, tags, p) == Flat(books)
    requires q == p ==> books != [] && books[|books| - 1] == Book(a.addr, a.i)
    ensures Of(acc', tags + ids, p)
      == Flat(if q == p then books[|books| - 1 := Book(a.addr, a.i + n)] else books)
  {
    hide Of, Flat;
    var piece := a.addr[a.i..a.i + n];
    OfConcat(acc, tags, piece, ids, p);
    OfSame(piece, ids, q, p);
    if q == p { LastFlat(books, a.addr, a.i, n); }
  }

  lemma LastFlat(books: seq<Book>, addr: seq<char>, i: nat, n: nat)
    requires books != [] && books[|books| - 1] == Book(addr, i) && i + n <= |addr|
    ensures Flat(books[|books| - 1 := Book(addr, i + n)]) == Flat(books) + addr[i..i + n]
  {
    var m := |books| - 1;
    assert addr[..i + n] == addr[..i] + addr[i..i + n];
    assert books[m := Book(addr, i + n)][..m] == books[..m];
  }

  lemma {:induction false} StreamsRun(s: State, steps: seq<Step>, t: State, p: nat, books: seq<Book>, tags: seq<nat>)
    requires Inv(s) && Run(s, steps, t) && Right(s, books, p) && |tags| == |s.c.accepted|
    requires Of(s.c.accepted, tags, p) == Flat(books)
    ensures |Tags(s, steps, t, tags)| == |t.c.accepted|
    ensures Of(t.c.accepted, Tags(s, steps, t, tags), p) == Flat(Books(s, steps, t, p, books))
    ensures Right(t, Books(s, steps, t, p, books), p)
    decreases |steps|
  {
    if steps != [] {
      var u := Next(s, steps[0]);
      StepKeepsInv(s, steps[0]);
      StepRight(s, steps[0], p, books);
      StepFlat(s, steps[0], p, books, tags);
      hide Inv, Right, Of, Flat, Booked, New;
      StreamsRun(u, steps[1..], t, p, Booked(s, steps[0], u, p, books), tags + New(s, steps[0], u));
    }
  }

  /**
   * In every run the accepted bytes are an interleaving: those that process p put in are, call
   * by call and in order, the first bytes of what it passed; its open call has got as far as
   * the process has.
   */
  lemma WritersInterleave(steps: seq<Step>, t: State, p: nat)
    requires Run(Init, steps, t)
    ensures var tags, books := Tags(Init, steps, t, []), Books(Init, steps, t, p, []);
      && |tags| == |t.c.accepted| && Of(t.c.accepted, tags, p) == Flat(books)
      && (forall i :: 0 <= i < |books| ==> books[i].k <= |books[i].addr|)
      && (p in t.calls && t.calls[p].Writing? ==>
            books != [] && books[|books| - 1] == Book(t.calls[p].addr, t.calls[p].i))
  {
    StreamsRun(Init, steps, t, p, [], []);
  }

  // One writer.

  /** No write section of the run meets a kill or a closed reader. */
  ghost predicate Unfailing(s: State, steps: seq<Step>, t: State)
    requires Run(s, steps, t)
    decreases |steps|
  {
    steps == [] ||
    ((steps[0].WriteSection? ==> !steps[0].killed && s.c.readopen)
     && Unfailing(Next(s, steps[0]), steps[1..], t))
  }

  /** Every call of p that has returned put in all its bytes. */
  ghost predicate Complete(s: State, books: seq<Book>, p: nat) {
    forall i :: 0 <= i < |books| && (i < |books| - 1 || !(p in s.calls && s.calls[p].Writing?)) ==>
      books[i].k == |books[i].addr|
  }

  lemma StepComplete(s: State, st: Step, p: nat, books: seq<Book>)
    requires Inv(s) && Enabled(s, st) && Right(s, books, p) && Complete(s, books, p)
    requires st.WriteSection? ==> !st.killed && s.c.readopen
    ensures Complete(Next(s, st), Booked(s, st, Next(s, st), p, books), p)
  {
    StepAdds(s, st);
    if st.WriteSection? && st.p == p {
      SectionStays(s, st);
    } else if !(st.StartWrite? && st.p == p) {
      OtherCall(s, st, p);
    } else {
      assert p !in s.calls;
    }
    hide Inv, Enabled;
  }

  lemma SectionStays(s: State, st: Step)
    requires Inv(s) && Enabled(s, st) && st.WriteSection?
    ensures st.p in Next(s, st).calls ==> Next(s, st).calls[st.p].Writing?
  {
    hide WriterRested;
  }

  lemma {:induction false} CompleteRun(s: State, steps: seq<Step>, t: State, p: nat, books: seq<Book>)
    requires Inv(s) && Run(s, steps, t) && Right(s, books, p) && Complete(s, books, p) && Unfailing(s, steps, t)
    ensures Complete(t, Books(s, steps, t, p, books), p)
    decreases |steps|
  {
    if steps != [] {
      var u := Next(s, steps[0]);
      StepKeepsInv(s, steps[0]);
      StepRight(s, steps[0], p, books);
      StepComplete(s, steps[0], p, books);
      hide Inv, Right, Booked, Complete;
      CompleteRun(u, steps[1..], t, p, Booked(s, steps[0], u, p, books));
    }
  }

  lemma {:induction false} FlatAll(books: seq<Book>)
    requires forall i :: 0 <= i < |books| ==> books[i].k == |books[i].addr|
    ensures Flat(books) == All(books)
  {
    if books != [] {
      FlatAll(books[..|books| - 1]);
    }
  }

  /** Every byte string that p passed to pipewrite, in order. */
  function Passed(steps: seq<Step>, p: nat): seq<char> {
    if steps == [] then []
    else (if steps[0].StartWrite? && steps[0].p == p then steps[0].addr else []) + Passed(steps[1..], p)
  }

  lemma {:induction false} AllPassed(s: State, steps: seq<Step>, t: State, p: nat, books: seq<Book>)
    requires Run(s, steps, t)
    ensures All(Books(s, steps, t, p, books)) == All(books) + Passed(steps, p)
    decreases |steps|
  {
    if steps != [] {
      var u := Next(s, steps[0]);
      BookedAll(s, steps[0], u, p, books);
      hide All, Booked;
      AllPassed(u, steps[1..], t, p, Booked(s, steps[0], u, p, books));
    }
  }

  lemma BookedAll(s: State, st: Step, u: State, p: nat, books: seq<Book>)
    ensures All(Booked(s, st, u, p, books)) == All(books) + if st.StartWrite? && st.p == p then st.addr else []
  {
    if st.StartWrite? && st.p == p {
      assert (books + [Book(st.addr, 0)])[..|books|] == books;
    } else if books != [] {
      var m := |books| - 1;
      assert Booked(s, st, u, p, books)[..m] == books[..m];
    }
  }

  predicate AllAre(tags: seq<nat>, p: nat) { forall i :: 0 <= i < |tags| ==> tags[i] == p }

  /** Nobody but p writes. */
  ghost predicate Alone(s: State, p: nat) { forall q :: q in s.calls && s.calls[q].Writing? ==> q == p }

  lemma StepAlone(s: State, st: Step, p: nat)
    requires Inv(s) && Enabled(s, st) && Alone(s, p) && (st.StartWrite? ==> st.p == p)
    ensures Alone(Next(s, st), p) && (st.WriteSection? ==> st.p == p)
  {
    hide WriterRested;
  }

  lemma {:induction false} AloneRun(s: State, steps: seq<Step>, t: State, p: nat, tags: seq<nat>)
    requires Inv(s) && Run(s, steps, t) && Alone(s, p)
    requires forall i :: 0 <= i < |steps| && steps[i].StartWrite? ==> steps[i].p == p
    requires AllAre(tags, p)
    ensures AllAre(Tags(s, steps, t, tags), p)
    decreases |steps|
  {
    if steps != [] {
      var u := Next(s, steps[0]);
      StepKeepsInv(s, steps[0]);
      StepAlone(s, steps[0], p);
      var tags' := tags + New(s, steps[0], u);
      assert AllAre(tags', p);
      hide Inv, Alone, New, Enabled, Next, AllAre;
      assert Tags(s, steps, t, tags) == Tags(u, steps[1..], t, tags');
      AloneRun(u, steps[1..], t, p, tags');
    }
  }

  /**
   * With one writer that is not killed and a reader that stays, what has been accepted and
   * what has been read are prefixes of what was written, and once the writer is out of
   * pipewrite all of it has been accepted.
   */
  lemma {:induction false} OneWriter(steps: seq<Step>, t: State, p: nat)
    requires Run(Init, steps, t) && Unfailing(Init, steps, t)
    requires forall i :: 0 <= i < |steps| && steps[i].StartWrite? ==> steps[i].p == p
    ensures t.c.delivered <= t.c.accepted <= Passed(steps, p)
    ensures !(p in t.calls && t.calls[p].Writing?) ==> t.c.accepted == Passed(steps, p)
  {
    var tags, books := Tags(Init, steps, t, []), Books(Init, steps, t, p, []);
    WritersInterleave(steps, t, p);
    CompleteRun(Init, steps, t, p, []);
    AloneRun(Init, steps, t, p, []);
    AllPassed(Init, steps, t, p, []);
    PipeSafety(steps, t);
    hide Run, Tags, Books, Unfailing, Flat, All, Passed, WriterRested, ReadersRested, NoStranding;
    OfSame(t.c.accepted, tags, p, p);
    FlatMost(books, p in t.calls && t.calls[p].Writing?);
  }

  lemma FlatMost(books: seq<Book>, open: bool)
    requires forall i :: 0 <= i < |books| ==> books[i].k <= |books[i].addr|
    requires forall i :: 0 <= i < |books| && (i < |books| - 1 || !open) ==> books[i].k == |books[i].addr|
    ensures Flat(books) <= All(books) && (!open ==> Flat(books) == All(books))
  {
    if !open {
      FlatAll(books);
    } else if books != [] {
      FlatAll(books[..|books| - 1]);
    }
  }

  /** What p's last call of piperead asked for. */
  function Asked(steps: seq<Step>, p: nat, n: int): int {
    if steps == [] then n
    else Asked(steps[1..], p, if steps[0].StartRead? && steps[0].p == p then steps[0].n else n)
  }

  lemma {:induction false} AskedRun(s: State, steps: seq<Step>, t: State, p: nat, n: int)
    requires Run(s, steps, t)
    requires p in s.calls && s.calls[p].Reading? ==> s.calls[p].n == n
    ensures p in t.calls && t.calls[p].Reading? ==> t.calls[p].n == Asked(steps, p, n)
    decreases |steps|
  {
    if steps != [] {
      var m := if steps[0].StartRead? && steps[0].p == p then steps[0].n else n;
      AskedRun(Next(s, steps[0]), steps[1..], t, p, m);
    }
  }

  /**
   * In any run, a section of piperead hands out the next bytes accepted, as many as the call
   * asked for or as there are; none of a negative request, and none while it waits.
   */
  lemma ReadersServed(steps: seq<Step>, t: State, p: nat, killed: bool)
    requires Run(Init, steps, t) && Enabled(t, ReadSection(p, killed))
    ensures
      var u, n, used := Next(t, ReadSection(p, killed)), Asked(steps, p, 0), |t.c.accepted| - |t.c.delivered|;
      && u.c.accepted == t.c.accepted && u.c.delivered <= u.c.accepted
      && |u.c.delivered| - |t.c.delivered| == (if n <= 0 then 0 else if n <= used then n else used)
      && (p in u.calls <==> used == 0 && t.c.writeopen && !killed)
  {
    AskedRun(Init, steps, t, p, 0);
  }
}
