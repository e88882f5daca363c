/** What the shell's parser (sh.c) accepts, as a grammar over tokens that knows nothing of the parser:
    a line is accepted exactly if it can be derived, and the command is the one derived. */
module ShellGrammar {
  import opened Shell

  // Tokens.

  datatype Tok = Sym(c: char) | Word(w: Span)

  function TokOf(t: Token): Tok { if t.kind == 'a' then Word(Span(t.q, t.eq)) else Sym(t.kind) }

  /** The tokens of the line from i on. */
  function Toks(s: string, i: nat): seq<Tok>
    requires i <= |s| && Clean(s)
    decreases |s| - i
  {
    var t := GetToken(s, i);
    if t.kind == NUL then [] else [TokOf(t)] + Toks(s, t.next)
  }

  // Derivations: line ::= pipe '&'* [';' line]; pipe ::= exec ['|' pipe];
  // exec ::= redir* (word redir*)* | '(' line ')' redir*; redir ::= ('<' | '>' | '>>') word.

  datatype Redirect = Redirect(op: char, file: Span)
  datatype Arg = Arg(w: Span, redirs: seq<Redirect>)
  datatype ExecT = Plain(first: seq<Redirect>, args: seq<Arg>) | Group(line: LineT, redirs: seq<Redirect>)
  datatype PipeT = One(exec: ExecT) | Piped(exec: ExecT, rest: PipeT)
  datatype LineT = Last(pipe: PipeT, backs: nat) | Then(pipe: PipeT, backs: nat, rest: LineT)

  function RedirToks(rs: seq<Redirect>): seq<Tok> {
    if rs == [] then [] else [Sym(rs[0].op), Word(rs[0].file)] + RedirToks(rs[1..])
  }
  function ArgToks(args: seq<Arg>): seq<Tok> {
    if args == [] then [] else [Word(args[0].w)] + (RedirToks(args[0].redirs) + ArgToks(args[1..]))
  }
  function Amps(n: nat): seq<Tok> { if n == 0 then [] else [Sym('&')] + Amps(n - 1) }

  function ExecToks(e: ExecT): seq<Tok> {
    match e
    case Plain(first, args) => RedirToks(first) + ArgToks(args)
    case Group(l, rs) => [Sym('(')] + (LineToks(l) + ([Sym(')')] + RedirToks(rs)))
  }
  function PipeToks(p: PipeT): seq<Tok> {
    match p
    case One(e) => ExecToks(e)
    case Piped(e, rest) => ExecToks(e) + ([Sym('|')] + PipeToks(rest))
  }
  function LineToks(l: LineT): seq<Tok> {
    match l
    case Last(p, n) => PipeToks(p) + Amps(n)
    case Then(p, n, rest) => PipeToks(p) + (Amps(n) + ([Sym(';')] + LineToks(rest)))
  }

  // The command of a derivation. Each redirection goes around what was there before it.

  function Opened(r: Redirect): Redirection { Redirection(r.file, r.op != '<') }
  function Nested(c: Cmd, rs: seq<Redirect>): Cmd
    decreases |rs|
  {
    if rs == [] then c else Nested(Redir(c, Opened(rs[0])), rs[1..])
  }
  function Argv(args: seq<Arg>): seq<Span> { seq(|args|, k requires 0 <= k < |args| => args[k].w) }
  function Later(args: seq<Arg>): seq<Redirect> { if args == [] then [] else args[0].redirs + Later(args[1..]) }
  function Backed(c: Cmd, n: nat): Cmd
    decreases n
  {
    if n == 0 then c else Backed(Back(c), n - 1)
  }

  function ExecCmd(e: ExecT): Cmd {
    match e
    case Plain(first, args) => Nested(Exec(Argv(args)), first + Later(args))
    case Group(l, rs) => Nested(LineCmd(l), rs)
  }
  function PipeCmd(p: PipeT): Cmd {
    match p
    case One(e) => ExecCmd(e)
    case Piped(e, rest) => Pipe(ExecCmd(e), PipeCmd(rest))
  }
  function LineCmd(l: LineT): Cmd {
    match l
    case Last(p, n) => Backed(PipeCmd(p), n)
    case Then(p, n, rest) => List(Backed(PipeCmd(p), n), LineCmd(rest))
  }

  // The operators are redirections and there are fewer than MAXARGS arguments.

  predicate Ops(rs: seq<Redirect>) { forall k :: 0 <= k < |rs| ==> rs[k].op in {'<', '>', '+'} }
  predicate ArgsGood(args: seq<Arg>) { forall k :: 0 <= k < |args| ==> Ops(args[k].redirs) }
  predicate ExecGood(e: ExecT) {
    match e
    case Plain(first, args) => Ops(first) && ArgsGood(args) && |args| < MAXARGS
    case Group(l, rs) => LineGood(l) && Ops(rs)
  }
  predicate PipeGood(p: PipeT) {
    match p
    case One(e) => ExecGood(e)
    case Piped(e, rest) => ExecGood(e) && PipeGood(rest)
  }
  predicate LineGood(l: LineT) {
    match l
    case Last(p, _) => PipeGood(p)
    case Then(p, _, rest) => PipeGood(p) && LineGood(rest)
  }

  // The cursor and the tokens.

  lemma ToksSkip(s: string, i: nat)
    requires i <= |s| && Clean(s)
    ensures Toks(s, Skip(s, i)) == Toks(s, i)
  {
    SkipTwice(s, i);
  }

  predicate Starts(ts: seq<Tok>, c: char) { ts != [] && ts[0] == Sym(c) }
  predicate StartsRedir(ts: seq<Tok>) { Starts(ts, '<') || Starts(ts, '>') || Starts(ts, '+') }

  /** What peek sees is the first token. */
  lemma PeekTok(s: string, i: nat)
    requires i <= |s| && Clean(s)
    ensures Peek(s, i, "(") <==> Starts(Toks(s, i), '(')
    ensures Peek(s, i, ")") <==> Starts(Toks(s, i), ')')
    ensures Peek(s, i, "|") <==> Starts(Toks(s, i), '|')
    ensures Peek(s, i, "&") <==> Starts(Toks(s, i), '&')
    ensures Peek(s, i, ";") <==> Starts(Toks(s, i), ';')
  {
    FirstTok(s, i);
  }

  lemma PeekMore(s: string, i: nat)
    requires i <= |s| && Clean(s)
    ensures Peek(s, i, "<>") <==> StartsRedir(Toks(s, i))
    ensures Peek(s, i, "|)&;") <==>
      Starts(Toks(s, i), '|') || Starts(Toks(s, i), ')') || Starts(Toks(s, i), '&') || Starts(Toks(s, i), ';')
  {
    FirstTok(s, i);
    assert "<>"[0] == '<' && "<>"[1] == '>';
    assert "|)&;"[0] == '|' && "|)&;"[1] == ')' && "|)&;"[2] == '&' && "|)&;"[3] == ';';
  }

  /** The first token and the character it begins with. */
  lemma FirstTok(s: string, i: nat)
    requires i <= |s| && Clean(s)
    ensures var c, ts := Ch(s, Skip(s, i)), Toks(s, i);
      && (c == NUL <==> ts == [])
      && (c != NUL && !Symbol(c) ==> ts[0].Word?)
      && (Symbol(c) && c != '>' ==> ts != [] && ts[0] == Sym(c))
      && (c == '>' ==> ts != [] && (ts[0] == Sym('>') || ts[0] == Sym('+')))
  {
    hide Skip;
  }

  /** Taking a token. */
  lemma NextTok(s: string, i: nat)
    requires i <= |s| && Clean(s) && Toks(s, i) != []
    ensures var t := GetToken(s, i); t.kind != NUL && Toks(s, i)[0] == TokOf(t) && Toks(s, t.next) == Toks(s, i)[1..]
    ensures var t := GetToken(s, i); (t.kind == 'a' <==> Toks(s, i)[0].Word?)
  {
    var t := GetToken(s, i);
    assert ([TokOf(t)] + Toks(s, t.next))[1..] == Toks(s, t.next);
  }

  // Wrap is Nested.

  function Openeds(rs: seq<Redirect>): seq<Redirection> { seq(|rs|, k requires 0 <= k < |rs| => Opened(rs[k])) }

  lemma {:induction false} NestedLast(c: Cmd, rs: seq<Redirect>, r: Redirect)
    ensures Nested(c, rs + [r]) == Redir(Nested(c, rs), Opened(r))
    decreases |rs|
  {
    if rs == [] {
      assert rs + [r] == [r];
      assert [r][1..] == [];
    } else {
      assert (rs + [r])[1..] == rs[1..] + [r];
      NestedLast(Redir(c, Opened(rs[0])), rs[1..], r);
    }
  }

  lemma {:induction false} WrapNested(c: Cmd, rs: seq<Redirect>)
    ensures Wrap(c, Openeds(rs)) == Nested(c, rs)
    decreases |rs|
  {
    if rs != [] {
      var n := |rs| - 1;
      assert rs == rs[..n] + [rs[n]];
      assert Openeds(rs)[..n] == Openeds(rs[..n]);
      WrapNested(c, rs[..n]);
      NestedLast(c, rs[..n], rs[n]);
    }
  }

  lemma OpenedsConcat(xs: seq<Redirect>, ys: seq<Redirect>)
    ensures Openeds(xs + ys) == Openeds(xs) + Openeds(ys)
  {
  }

  // What is accepted is derived.

  lemma {:induction false} RedirsSound(s: string, rs: seq<Redirection>, i: nat) returns (out: seq<Redirect>)
    requires i <= |s| && Clean(s) && Redirs(s, rs, i).Ok?
    ensures var r := Redirs(s, rs, i);
      r.value == rs + Openeds(out) && Ops(out) && Toks(s, i) == RedirToks(out) + Toks(s, r.pos)
    decreases |s| - i
  {
    hide Peek, GetToken, Skip, Toks, Clean;
    PeekMore(s, i);
    if !Peek(s, i, "<>") {
      out := [];
      ToksSkip(s, i);
    } else {
      var t := GetToken(s, i);
      var f := GetToken(s, t.next);
      RedirFile(s, i);
      var x, y := Redirection(Span(f.q, f.eq), t.kind != '<'), Redirect(t.kind, Span(f.q, f.eq));
      hide RedirToks, Openeds;
      var rest := RedirsSound(s, rs + [x], f.next);
      out := [y] + rest;
      OneMore(rs, x, y, rest);
    }
  }

  /** A redirection and its file. */
  lemma RedirFile(s: string, i: nat)
    requires i <= |s| && Clean(s) && Peek(s, i, "<>") && GetToken(s, GetToken(s, i).next).kind == 'a'
    ensures var t := GetToken(s, i); var f := GetToken(s, t.next); var y := Redirect(t.kind, Span(f.q, f.eq));
      Ops([y]) && Toks(s, i) == [Sym(y.op), Word(y.file)] + Toks(s, f.next)
  {
    hide Peek, GetToken, Skip, Toks, Clean;
    PeekMore(s, i);
    NextTok(s, i);
    var t := GetToken(s, i);
    TokEnd(s, t.next);
    NextTok(s, t.next);
    assert Ops([Redirect(t.kind, Span(t.q, t.eq))]);
    assert Toks(s, i) == [Toks(s, i)[0]] + Toks(s, t.next);
    assert Toks(s, t.next) == [Toks(s, t.next)[0]] + Toks(s, t.next)[1..];
  }

  lemma TokEnd(s: string, i: nat)
    requires i <= |s| && Clean(s)
    ensures Toks(s, i) == [] <==> GetToken(s, i).kind == NUL
  {
  }

  lemma OneMore(rs: seq<Redirection>, x: Redirection, y: Redirect, rest: seq<Redirect>)
    requires x == Opened(y)
    ensures rs + [x] + Openeds(rest) == rs + Openeds([y] + rest)
    ensures RedirToks([y] + rest) == [Sym(y.op), Word(y.file)] + RedirToks(rest)
  {
    assert Openeds([y] + rest) == [x] + Openeds(rest);
    assert ([y] + rest)[1..] == rest;
  }

  lemma {:induction false} ArgsSound(s: string, argv: seq<Span>, rs: seq<Redirection>, i: nat) returns (args: seq<Arg>)
    requires i <= |s| && Clean(s) && Args(s, argv, rs, i).Ok? && |argv| < MAXARGS
    ensures var r := Args(s, argv, rs, i);
      && r.value == Wrap(Exec(argv + Argv(args)), rs + Openeds(Later(args)))
      && ArgsGood(args) && |argv| + |args| < MAXARGS && Toks(s, i) == ArgToks(args) + Toks(s, r.pos)
    decreases |s| - i
  {
    hide Peek, GetToken, Skip, Toks, Clean, Redirs, Wrap;
    TokEnd(s, i);
    if Peek(s, i, "|)&;") || GetToken(s, i).kind == NUL {
      args := [];
      ToksSkip(s, i);
      NoArgs(argv, rs);
      if !Peek(s, i, "|)&;") {
        TokEnd(s, GetToken(s, i).next);
        EndToken(s, i);
      }
    } else {
      var t := GetToken(s, i);
      NextTok(s, i);
      var mid := Redirs(s, rs, t.next);
      var here := RedirsSound(s, rs, t.next);
      var w := Span(t.q, t.eq);
      hide ArgToks, RedirToks, Openeds, Argv, Later;
      var rest := ArgsSound(s, argv + [w], mid.value, mid.pos);
      args := [Arg(w, here)] + rest;
      OneArg(argv, rs, w, here, rest);
      Joined(Word(w), RedirToks(here), ArgToks(rest), Toks(s, Args(s, argv, rs, i).pos));
    }
  }

  lemma EndToken(s: string, i: nat)
    requires i <= |s| && Clean(s) && GetToken(s, i).kind == NUL
    ensures Toks(s, GetToken(s, i).next) == [] && Toks(s, i) == []
  {
    PeekEnd(s, "");
  }

  lemma NoArgs(argv: seq<Span>, rs: seq<Redirection>)
    ensures argv + Argv([]) == argv && rs + Openeds(Later([])) == rs
  {
  }

  lemma OneArg(argv: seq<Span>, rs: seq<Redirection>, w: Span, here: seq<Redirect>, rest: seq<Arg>)
    ensures var args := [Arg(w, here)] + rest;
      && argv + [w] + Argv(rest) == argv + Argv(args)
      && rs + Openeds(here) + Openeds(Later(rest)) == rs + Openeds(Later(args))
      && ArgToks(args) == [Word(w)] + (RedirToks(here) + ArgToks(rest))
  {
    var args := [Arg(w, here)] + rest;
    assert args[1..] == rest;
    assert Argv(args) == [w] + Argv(rest);
    OpenedsConcat(here, Later(rest));
  }

  lemma {:induction false} ExecSound(s: string, i: nat) returns (e: ExecT)
    requires i <= |s| && Clean(s) && ExecOrBlock(s, i).Ok?
    ensures var r := ExecOrBlock(s, i);
      r.value == ExecCmd(e) && ExecGood(e) && Toks(s, i) == ExecToks(e) + Toks(s, r.pos)
    decreases |s| - i, 1
  {
    hide Peek, GetToken, Skip, Toks, Clean, Redirs, Wrap, Args, Block, ExecCmd, ExecToks, ExecGood;
    if Peek(s, i, "(") {
      e := BlockSound(s, i);
    } else {
      var first := RedirsSound(s, [], i);
      var r := Redirs(s, [], i);
      var args := ArgsSound(s, [], r.value, r.pos);
      e := Plain(first, args);
      PlainParts(first, args);
      assert Toks(s, i) == (RedirToks(first) + ArgToks(args)) + Toks(s, ExecOrBlock(s, i).pos);
    }
  }

  lemma PlainParts(first: seq<Redirect>, args: seq<Arg>)
    requires Ops(first) && ArgsGood(args) && |args| < MAXARGS
    ensures Wrap(Exec([] + Argv(args)), ([] + Openeds(first)) + Openeds(Later(args))) == ExecCmd(Plain(first, args))
    ensures ExecToks(Plain(first, args)) == RedirToks(first) + ArgToks(args) && ExecGood(Plain(first, args))
  {
    assert [] + Argv(args) == Argv(args) && [] + Openeds(first) == Openeds(first);
    OpenedsConcat(first, Later(args));
    WrapNested(Exec(Argv(args)), first + Later(args));
  }

  lemma {:induction false} BlockSound(s: string, i: nat) returns (e: ExecT)
    requires i <= |s| && Clean(s) && Peek(s, i, "(") && Block(s, i).Ok?
    ensures var r := Block(s, i); r.value == ExecCmd(e) && ExecGood(e) && Toks(s, i) == ExecToks(e) + Toks(s, r.pos)
    decreases |s| - i, 0
  {
    hide Peek, GetToken, Skip, Toks, Clean, Redirs, Wrap, Line, LineCmd, LineToks, LineGood, Nested;
    PeekTok(s, i);
    var t := GetToken(s, i);
    NextTok(s, i);
    var c := Line(s, t.next);
    var l := LineSound(s, t.next);
    PeekTok(s, c.pos);
    var u := GetToken(s, c.pos);
    NextTok(s, c.pos);
    var rs := RedirsSound(s, [], u.next);
    e := Group(l, rs);
    assert [] + Openeds(rs) == Openeds(rs);
    WrapNested(c.value, rs);
    Regroup([Sym('(')], LineToks(l), [Sym(')')], RedirToks(rs), Toks(s, Block(s, i).pos));
    FirstAnd(Toks(s, i), Sym('('), Toks(s, t.next));
    FirstAnd(Toks(s, c.pos), Sym(')'), Toks(s, u.next));
  }

  lemma FirstAnd(ts: seq<Tok>, a: Tok, rest: seq<Tok>)
    requires ts != [] && ts[0] == a && rest == ts[1..]
    ensures ts == [a] + rest
  {
  }

  lemma Regroup(a: seq<Tok>, x: seq<Tok>, b: seq<Tok>, y: seq<Tok>, z: seq<Tok>)
    ensures a + (x + (b + (y + z))) == (a + (x + (b + y))) + z
  {
    assert b + (y + z) == (b + y) + z;
    assert x + ((b + y) + z) == (x + (b + y)) + z;
  }

  lemma {:induction false} PipeSound(s: string, i: nat) returns (p: PipeT)
    requires i <= |s| && Clean(s) && PipeLine(s, i).Ok?
    ensures var r := PipeLine(s, i); r.value == PipeCmd(p) && PipeGood(p) && Toks(s, i) == PipeToks(p) + Toks(s, r.pos)
    decreases |s| - i, 2
  {
    hide Peek, GetToken, Skip, Toks, Clean, ExecOrBlock;
    var e := ExecSound(s, i);
    var x := ExecOrBlock(s, i);
    PeekTok(s, x.pos);
    if Peek(s, x.pos, "|") {
      NextTok(s, x.pos);
      var rest := PipeSound(s, GetToken(s, x.pos).next);
      p := Piped(e, rest);
      assert Toks(s, i) == ExecToks(e) + ([Sym('|')] + PipeToks(rest)) + Toks(s, PipeLine(s, i).pos);
    } else {
      ToksSkip(s, x.pos);
      p := One(e);
    }
  }

  lemma {:induction false} BacksSound(s: string, c: Cmd, i: nat) returns (n: nat)
    requires i <= |s| && Clean(s)
    ensures var r := Backs(s, c, i); r.value == Backed(c, n) && Toks(s, i) == Amps(n) + Toks(s, r.pos)
    decreases |s| - i
  {
    hide Peek, GetToken, Skip, Toks, Clean;
    PeekTok(s, i);
    if Peek(s, i, "&") {
      NextTok(s, i);
      var m := BacksSound(s, Back(c), GetToken(s, i).next);
      n := m + 1;
    } else {
      ToksSkip(s, i);
      n := 0;
    }
  }

  lemma {:induction false} LineSound(s: string, i: nat) returns (l: LineT)
    requires i <= |s| && Clean(s) && Line(s, i).Ok?
    ensures var r := Line(s, i); r.value == LineCmd(l) && LineGood(l) && Toks(s, i) == LineToks(l) + Toks(s, r.pos)
    decreases |s| - i, 3
  {
    hide Peek, GetToken, Skip, Toks, Clean, PipeLine, Backs;
    var p := PipeSound(s, i);
    var x := PipeLine(s, i);
    var n := BacksSound(s, x.value, x.pos);
    var b := Backs(s, x.value, x.pos);
    PeekTok(s, b.pos);
    if Peek(s, b.pos, ";") {
      NextTok(s, b.pos);
      var rest := LineSound(s, GetToken(s, b.pos).next);
      l := Then(p, n, rest);
      assert Toks(s, i) == PipeToks(p) + (Amps(n) + ([Sym(';')] + LineToks(rest))) + Toks(s, Line(s, i).pos);
    } else {
      l := Last(p, n);
      assert Toks(s, i) == (PipeToks(p) + Amps(n)) + Toks(s, b.pos);
    }
  }

  // What is derived is accepted. The token behind a phrase is one that may follow it.

  predicate LineFollow(ts: seq<Tok>) { ts == [] || ts[0] == Sym(')') }
  predicate PipeFollow(ts: seq<Tok>) { LineFollow(ts) || ts[0] == Sym('&') || ts[0] == Sym(';') }
  predicate ExecFollow(ts: seq<Tok>) { PipeFollow(ts) || ts[0] == Sym('|') }

  /** The result is c and what remains is rest. */
  ghost predicate Leaves<T(!new)>(s: string, r: Parsed<T>, v: T, rest: seq<Tok>)
    requires Clean(s)
  {
    r.Ok? && r.pos <= |s| && r.value == v && Toks(s, r.pos) == rest
  }

  lemma {:induction false} RedirsComplete(s: string, rs: seq<Redirection>, i: nat, out: seq<Redirect>, rest: seq<Tok>)
    requires i <= |s| && Clean(s) && Ops(out) && Toks(s, i) == RedirToks(out) + rest && !StartsRedir(rest)
    ensures Leaves(s, Redirs(s, rs, i), rs + Openeds(out), rest)
    decreases |out|
  {
    hide Peek, GetToken, Skip, Toks, Clean;
    PeekMore(s, i);
    if out == [] {
      ToksSkip(s, i);
      assert rs + Openeds(out) == rs;
    } else {
      var y := out[0];
      assert out == [y] + out[1..];
      OneMore(rs, Opened(y), y, out[1..]);
      TwoToks(s, i, Sym(y.op), Word(y.file), RedirToks(out[1..]) + rest);
      var t := GetToken(s, i);
      var f := GetToken(s, t.next);
      RedirsComplete(s, rs + [Opened(y)], f.next, out[1..], rest);
    }
  }

  /** The next two tokens. */
  lemma TwoToks(s: string, i: nat, a: Tok, b: Tok, rest: seq<Tok>)
    requires i <= |s| && Clean(s) && Toks(s, i) == [a, b] + rest
    ensures var t := GetToken(s, i); var f := GetToken(s, t.next);
      TokOf(t) == a && TokOf(f) == b && Toks(s, f.next) == rest && (f.kind == 'a' <==> b.Word?)
  {
    NextTok(s, i);
    var t := GetToken(s, i);
    NextTok(s, t.next);
    assert ([a, b] + rest)[1..] == [b] + rest && ([b] + rest)[1..] == rest;
  }

  lemma OneTok(s: string, i: nat, a: Tok, rest: seq<Tok>)
    requires i <= |s| && Clean(s) && Toks(s, i) == [a] + rest
    ensures var t := GetToken(s, i);
      t.kind != NUL && TokOf(t) == a && Toks(s, t.next) == rest && (t.kind == 'a' <==> a.Word?)
  {
    NextTok(s, i);
    assert ([a] + rest)[1..] == rest;
  }

  lemma {:induction false} ArgsComplete(s: string, argv: seq<Span>, rs: seq<Redirection>, i: nat, args: seq<Arg>,
          rest: seq<Tok>)
    requires i <= |s| && Clean(s) && ArgsGood(args) && |argv| + |args| < MAXARGS && Toks(s, i) == ArgToks(args) + rest
    requires ExecFollow(rest)
    ensures Leaves(s, Args(s, argv, rs, i), Wrap(Exec(argv + Argv(args)), rs + Openeds(Later(args))), rest)
    decreases |args|
  {
    hide Peek, GetToken, Skip, Toks, Clean, Redirs, Wrap, Args;
    if args == [] {
      NoArgs(argv, rs);
      ArgsEnd(s, argv, rs, i);
    } else {
      var w, here, more := args[0].w, args[0].redirs, args[1..];
      assert args == [Arg(w, here)] + more;
      OneArg(argv, rs, w, here, more);
      MoreFirst(more, rest);
      Joined(Word(w), RedirToks(here), ArgToks(more), rest);
      hide ArgToks, RedirToks, Openeds, Argv, Later, StartsRedir, ExecFollow;
      OneTok(s, i, Word(w), RedirToks(here) + (ArgToks(more) + rest));
      var t := GetToken(s, i);
      RedirsComplete(s, rs, t.next, here, ArgToks(more) + rest);
      var mid := Redirs(s, rs, t.next);
      ArgsNext(s, argv, rs, i);
      ArgsComplete(s, argv + [w], mid.value, mid.pos, more, rest);
    }
  }

  lemma MoreFirst(args: seq<Arg>, rest: seq<Tok>)
    requires ExecFollow(rest)
    ensures !StartsRedir(ArgToks(args) + rest)
  {
  }

  lemma Joined(a: Tok, xs: seq<Tok>, ys: seq<Tok>, zs: seq<Tok>)
    ensures [a] + (xs + ys) + zs == [a] + (xs + (ys + zs))
  {
  }

  lemma ArgsEnd(s: string, argv: seq<Span>, rs: seq<Redirection>, i: nat)
    requires i <= |s| && Clean(s) && ExecFollow(Toks(s, i))
    ensures Leaves(s, Args(s, argv, rs, i), Wrap(Exec(argv), rs), Toks(s, i))
  {
    hide Peek, GetToken, Skip, Toks, Clean, Redirs, Wrap;
    PeekMore(s, i);
    ToksSkip(s, i);
    TokEnd(s, i);
    if Toks(s, i) == [] {
      EndToken(s, i);
    }
  }

  lemma ArgsNext(s: string, argv: seq<Span>, rs: seq<Redirection>, i: nat)
    requires i <= |s| && Clean(s) && Toks(s, i) != [] && Toks(s, i)[0].Word? && |argv| + 1 < MAXARGS
    requires Redirs(s, rs, GetToken(s, i).next).Ok?
    ensures var t := GetToken(s, i); var r := Redirs(s, rs, t.next);
      Args(s, argv, rs, i) == Args(s, argv + [Span(t.q, t.eq)], r.value, r.pos)
  {
    hide Peek, GetToken, Skip, Toks, Clean, Redirs, Wrap;
    PeekMore(s, i);
    NextTok(s, i);
  }

  lemma {:induction false} ExecComplete(s: string, i: nat, e: ExecT, rest: seq<Tok>)
    requires i <= |s| && Clean(s) && ExecGood(e) && Toks(s, i) == ExecToks(e) + rest && ExecFollow(rest)
    ensures Leaves(s, ExecOrBlock(s, i), ExecCmd(e), rest)
    decreases e
  {
    hide Peek, GetToken, Skip, Toks, Clean, Redirs, Wrap, Args, Block;
    PeekTok(s, i);
    match e
    case Plain(first, args) =>
      PlainParts(first, args);
      assert Toks(s, i) == RedirToks(first) + (ArgToks(args) + rest);
      PlainFirst(first, args, rest);
      RedirsComplete(s, [], i, first, ArgToks(args) + rest);
      var r := Redirs(s, [], i);
      ArgsComplete(s, [], r.value, r.pos, args, rest);
    case Group(l, rs) =>
      BlockComplete(s, i, l, rs, rest);
  }

  lemma PlainFirst(first: seq<Redirect>, args: seq<Arg>, rest: seq<Tok>)
    requires Ops(first) && ExecFollow(rest)
    ensures !Starts(RedirToks(first) + (ArgToks(args) + rest), '(') && !StartsRedir(ArgToks(args) + rest)
  {
  }

  lemma {:induction false} BlockComplete(s: string, i: nat, l: LineT, rs: seq<Redirect>, rest: seq<Tok>)
    requires i <= |s| && Clean(s) && LineGood(l) && Ops(rs) && Toks(s, i) == ExecToks(Group(l, rs)) + rest
    requires ExecFollow(rest)
    ensures Peek(s, i, "(") && Leaves(s, Block(s, i), ExecCmd(Group(l, rs)), rest)
    decreases l, 1
  {
    hide Peek, GetToken, Skip, Toks, Clean, Redirs, Wrap, Line, LineToks, LineCmd, LineGood, Nested;
    Regroup([Sym('(')], LineToks(l), [Sym(')')], RedirToks(rs), rest);
    var tail := [Sym(')')] + (RedirToks(rs) + rest);
    PeekTok(s, i);
    OneTok(s, i, Sym('('), LineToks(l) + tail);
    var t := GetToken(s, i);
    LineComplete(s, t.next, l, tail);
    var c := Line(s, t.next);
    PeekTok(s, c.pos);
    OneTok(s, c.pos, Sym(')'), RedirToks(rs) + rest);
    RedirsComplete(s, [], GetToken(s, c.pos).next, rs, rest);
    assert [] + Openeds(rs) == Openeds(rs);
    WrapNested(c.value, rs);
  }

  lemma {:induction false} PipeComplete(s: string, i: nat, p: PipeT, rest: seq<Tok>)
    requires i <= |s| && Clean(s) && PipeGood(p) && Toks(s, i) == PipeToks(p) + rest && PipeFollow(rest)
    ensures Leaves(s, PipeLine(s, i), PipeCmd(p), rest)
    decreases p
  {
    hide Peek, GetToken, Skip, Toks, Clean, ExecOrBlock, ExecToks, ExecCmd, ExecGood;
    match p
    case One(e) =>
      ExecComplete(s, i, e, rest);
      var x := ExecOrBlock(s, i);
      PeekTok(s, x.pos);
      ToksSkip(s, x.pos);
    case Piped(e, more) =>
      var tail := [Sym('|')] + (PipeToks(more) + rest);
      assert Toks(s, i) == ExecToks(e) + tail;
      ExecComplete(s, i, e, tail);
      var x := ExecOrBlock(s, i);
      PeekTok(s, x.pos);
      OneTok(s, x.pos, Sym('|'), PipeToks(more) + rest);
      PipeComplete(s, GetToken(s, x.pos).next, more, rest);
  }

  lemma {:induction false} BacksComplete(s: string, c: Cmd, i: nat, n: nat, rest: seq<Tok>)
    requires i <= |s| && Clean(s) && Toks(s, i) == Amps(n) + rest && !Starts(rest, '&')
    ensures Leaves(s, Backs(s, c, i), Backed(c, n), rest)
    decreases n
  {
    hide Peek, GetToken, Skip, Toks, Clean;
    PeekTok(s, i);
    if n == 0 {
      ToksSkip(s, i);
    } else {
      assert Amps(n) + rest == [Sym('&')] + (Amps(n - 1) + rest);
      OneTok(s, i, Sym('&'), Amps(n - 1) + rest);
      BacksComplete(s, Back(c), GetToken(s, i).next, n - 1, rest);
    }
  }

  lemma {:induction false} LineComplete(s: string, i: nat, l: LineT, rest: seq<Tok>)
    requires i <= |s| && Clean(s) && LineGood(l) && Toks(s, i) == LineToks(l) + rest && LineFollow(rest)
    ensures Leaves(s, Line(s, i), LineCmd(l), rest)
    decreases l, 0
  {
    hide Peek, GetToken, Skip, Toks, Clean, PipeLine, Backs, PipeToks, PipeCmd, PipeGood;
    var p, n := l.pipe, l.backs;
    var tail := if l.Last? then rest else [Sym(';')] + (LineToks(l.rest) + rest);
    assert Toks(s, i) == PipeToks(p) + (Amps(n) + tail);
    AmpsFirst(n, tail);
    PipeComplete(s, i, p, Amps(n) + tail);
    var x := PipeLine(s, i);
    BacksComplete(s, x.value, x.pos, n, tail);
    var b := Backs(s, x.value, x.pos);
    PeekTok(s, b.pos);
    if l.Then? {
      OneTok(s, b.pos, Sym(';'), LineToks(l.rest) + rest);
      LineComplete(s, GetToken(s, b.pos).next, l.rest, rest);
    }
  }

  lemma AmpsFirst(n: nat, tail: seq<Tok>)
    requires tail == [] || tail[0] == Sym(';') || tail[0] == Sym(')')
    ensures PipeFollow(Amps(n) + tail)
  {
  }

  /** The command is derived from the line. */
  ghost predicate Derived(s: string, c: Cmd)
    requires Clean(s)
  {
    exists l: LineT :: LineGood(l) && LineToks(l) == Toks(s, 0) && LineCmd(l) == c
  }

  /** parsecmd gives c exactly if c is derived from the line; so a line that is not derived at all panics. */
  lemma ParsesIff(s: string, c: Cmd)
    requires Clean(s)
    ensures ParseLine(s) == Ok(c, |s|) <==> Derived(s, c)
    ensures ParseLine(s) == Panic <==> forall d :: !Derived(s, d)
  {
    hide Line, Toks, Skip, LineToks, LineCmd, LineGood;
    var x := Line(s, 0);
    if x.Ok? {
      var l := LineSound(s, 0);
      AllUsed(s, x.pos);
      if Skip(s, x.pos) == |s| {
        assert LineToks(l) + [] == LineToks(l);
        assert Derived(s, x.value);
      }
    }
    forall d | Derived(s, d) ensures ParseLine(s) == Ok(d, |s|) {
      var l: LineT :| LineGood(l) && LineToks(l) == Toks(s, 0) && LineCmd(l) == d;
      assert LineToks(l) + [] == LineToks(l);
      LineComplete(s, 0, l, []);
      AllUsed(s, x.pos);
    }
  }

  lemma AllUsed(s: string, i: nat)
    requires i <= |s| && Clean(s)
    ensures Toks(s, i) == [] <==> Skip(s, i) == |s|
  {
    FirstTok(s, i);
  }
}
