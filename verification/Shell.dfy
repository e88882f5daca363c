/** The shell's command parser (sh.c). */
module Shell {
  const MAXARGS := 10
  const NUL := '\0'

  predicate White(c: char) { c == ' ' || c == '\t' || c == '\r' || c == '\n' || c == '\U{000B}' }
  predicate Symbol(c: char) { c == '<' || c == '|' || c == '>' || c == '&' || c == ';' || c == '(' || c == ')' }
  predicate WordChar(c: char) { !White(c) && !Symbol(c) && c != NUL }

  /** A line as parsecmd sees it: the characters before the terminating NUL. */
  predicate Clean(s: string) { forall i :: 0 <= i < |s| ==> s[i] != NUL }

  /** A token as its first and end position. */
  datatype Span = Span(q: nat, eq: nat)

  /** Output redirection opens for writing and creating on descriptor 1, input for reading on 0. */
  datatype Redirection = Redirection(file: Span, out: bool)

  datatype Cmd =
    | Exec(argv: seq<Span>)
    | Redir(cmd: Cmd, redirection: Redirection)
    | Pipe(left: Cmd, right: Cmd)
    | List(left: Cmd, right: Cmd)
    | Back(cmd: Cmd)

  /** A panic ends the shell process; nothing is returned. */
  datatype Parsed<T> = Ok(value: T, pos: nat) | Panic

  // Tokens. The character at es is the NUL.

  function Ch(s: string, i: nat): char { if i < |s| then s[i] else NUL }

  function Skip(s: string, i: nat): (r: nat)
    requires i <= |s|
    ensures i <= r <= |s| && (r < |s| ==> !White(s[r])) && forall k :: i <= k < r ==> White(s[k])
    decreases |s| - i
  {
    if i < |s| && White(s[i]) then Skip(s, i + 1) else i
  }

  function WordEnd(s: string, i: nat): (r: nat)
    requires i <= |s|
    ensures i <= r <= |s| && (r < |s| ==> !WordChar(s[r])) && forall k :: i <= k < r ==> WordChar(s[k])
    decreases |s| - i
  {
    if i < |s| && WordChar(s[i]) then WordEnd(s, i + 1) else i
  }

  datatype Token = Token(kind: char, q: nat, eq: nat, next: nat)

  /** The longest token from i on; NUL at the end, 'a' a word, '+' for ">>". */
  function GetToken(s: string, i: nat): (t: Token)
    requires i <= |s| && Clean(s)
    ensures i <= t.q <= t.eq <= t.next <= |s| && (t.kind == NUL <==> t.q == |s|) && (t.kind != NUL ==> t.q < t.eq)
    ensures t.kind == 'a' ==> IsWord(s, Span(t.q, t.eq))
    ensures Skip(s, t.next) == t.next
  {
    var q := Skip(s, i);
    var c := Ch(s, q);
    if c == NUL then Token(NUL, q, q, q)
    else if c == '>' then
      if Ch(s, q + 1) == '>' then Token('+', q, q + 2, Skip(s, q + 2)) else Token('>', q, q + 1, Skip(s, q + 1))
    else if Symbol(c) then Token(c, q, q + 1, Skip(s, q + 1))
    else var e := WordEnd(s, q); Token('a', q, e, Skip(s, e))
  }

  /** A maximal run of word characters, as far as its end is concerned. */
  predicate IsWord(s: string, w: Span) {
    && w.q < w.eq <= |s| && (forall k :: w.q <= k < w.eq ==> WordChar(s[k]))
    && (w.eq < |s| ==> !WordChar(s[w.eq]))
  }

  /** Is the next character one of these? */
  predicate Peek(s: string, i: nat, toks: string)
    requires i <= |s|
  {
    var c := Ch(s, Skip(s, i));
    c != NUL && c in toks
  }

  // The grammar, as functions of the line and the cursor.

  function Wrap(c: Cmd, rs: seq<Redirection>): Cmd {
    if rs == [] then c else Redir(Wrap(c, rs[..|rs| - 1]), rs[|rs| - 1])
  }

  function Redirs(s: string, rs: seq<Redirection>, i: nat): (r: Parsed<seq<Redirection>>)
    requires i <= |s| && Clean(s)
    ensures r.Ok? ==> i <= r.pos <= |s|
    decreases |s| - i
  {
    if !Peek(s, i, "<>") then Ok(rs, Skip(s, i))
    else
      var t := GetToken(s, i);
      var f := GetToken(s, t.next);
      if f.kind != 'a' then Panic
      else Redirs(s, rs + [Redirection(Span(f.q, f.eq), t.kind != '<')], f.next)
  }

  function Args(s: string, argv: seq<Span>, rs: seq<Redirection>, i: nat): (r: Parsed<Cmd>)
    requires i <= |s| && Clean(s)
    ensures r.Ok? ==> i <= r.pos <= |s|
    decreases |s| - i
  {
    if Peek(s, i, "|)&;") then Ok(Wrap(Exec(argv), rs), Skip(s, i))
    else
      var t := GetToken(s, i);
      if t.kind == NUL then Ok(Wrap(Exec(argv), rs), t.next)
      else if t.kind != 'a' || |argv| + 1 >= MAXARGS then Panic
      else
        var rest := Redirs(s, rs, t.next);
        if rest.Panic? then Panic else Args(s, argv + [Span(t.q, t.eq)], rest.value, rest.pos)
  }

  function Line(s: string, i: nat): (r: Parsed<Cmd>)
    requires i <= |s| && Clean(s)
    ensures r.Ok? ==> i <= r.pos <= |s|
    decreases |s| - i, 3
  {
    var p := PipeLine(s, i);
    if p.Panic? then Panic
    else
      var b := Backs(s, p.value, p.pos);
      if !Peek(s, b.pos, ";") then b
      else
        var rest := Line(s, GetToken(s, b.pos).next);
        if rest.Panic? then Panic else Ok(List(b.value, rest.value), rest.pos)
  }

  function Backs(s: string, c: Cmd, i: nat): (r: Parsed<Cmd>)
    requires i <= |s| && Clean(s)
    ensures r.Ok? && i <= r.pos <= |s|
    decreases |s| - i
  {
    if Peek(s, i, "&") then Backs(s, Back(c), GetToken(s, i).next) else Ok(c, Skip(s, i))
  }

  function PipeLine(s: string, i: nat): (r: Parsed<Cmd>)
    requires i <= |s| && Clean(s)
    ensures r.Ok? ==> i <= r.pos <= |s|
    decreases |s| - i, 2
  {
    var e := ExecOrBlock(s, i);
    if e.Panic? || !Peek(s, e.pos, "|") then (if e.Ok? then Ok(e.value, Skip(s, e.pos)) else Panic)
    else
      var rest := PipeLine(s, GetToken(s, e.pos).next);
      if rest.Panic? then Panic else Ok(Pipe(e.value, rest.value), rest.pos)
  }

  function ExecOrBlock(s: string, i: nat): (r: Parsed<Cmd>)
    requires i <= |s| && Clean(s)
    ensures r.Ok? ==> i <= r.pos <= |s|
    decreases |s| - i, 1
  {
    if Peek(s, i, "(") then Block(s, i)
    else
      var rs := Redirs(s, [], i);
      if rs.Panic? then Panic else Args(s, [], rs.value, rs.pos)
  }

  function Block(s: string, i: nat): (r: Parsed<Cmd>)
    requires i <= |s| && Clean(s) && Peek(s, i, "(")
    ensures r.Ok? ==> i <= r.pos <= |s|
    decreases |s| - i, 0
  {
    var c := Line(s, GetToken(s, i).next);
    if c.Panic? || !Peek(s, c.pos, ")") then Panic
    else
      var rs := Redirs(s, [], GetToken(s, c.pos).next);
      if rs.Panic? then Panic else Ok(Wrap(c.value, rs.value), rs.pos)
  }

  /** parsecmd before nulterminate: the whole line must be used up. */
  function ParseLine(s: string): (r: Parsed<Cmd>)
    requires Clean(s)
  {
    var c := Line(s, 0);
    if c.Panic? || Skip(s, c.pos) != |s| then Panic else Ok(c.value, |s|)
  }

  // Every span of a parsed command is a whole word of the line.

  predicate Words(s: string, c: Cmd) {
    match c
    case Exec(argv) => forall k :: 0 <= k < |argv| ==> IsWord(s, argv[k])
    case Redir(d, r) => Words(s, d) && IsWord(s, r.file)
    case Pipe(l, r) => Words(s, l) && Words(s, r)
    case List(l, r) => Words(s, l) && Words(s, r)
    case Back(d) => Words(s, d)
  }

  predicate Files(s: string, rs: seq<Redirection>) { forall k :: 0 <= k < |rs| ==> IsWord(s, rs[k].file) }

  lemma {:induction false} WrapWords(s: string, c: Cmd, rs: seq<Redirection>)
    requires Words(s, c) && Files(s, rs)
    ensures Words(s, Wrap(c, rs))
  {
    if rs != [] {
      WrapWords(s, c, rs[..|rs| - 1]);
    }
  }

  lemma {:induction false} RedirsWords(s: string, rs: seq<Redirection>, i: nat)
    requires i <= |s| && Clean(s) && Files(s, rs) && Redirs(s, rs, i).Ok?
    ensures Files(s, Redirs(s, rs, i).value)
    decreases |s| - i
  {
    if Peek(s, i, "<>") {
      var t := GetToken(s, i);
      var f := GetToken(s, t.next);
      RedirsWords(s, rs + [Redirection(Span(f.q, f.eq), t.kind != '<')], f.next);
    }
  }

  lemma {:induction false} ArgsWords(s: string, argv: seq<Span>, rs: seq<Redirection>, i: nat)
    requires i <= |s| && Clean(s) && Files(s, rs) && (forall k :: 0 <= k < |argv| ==> IsWord(s, argv[k]))
    requires Args(s, argv, rs, i).Ok?
    ensures Words(s, Args(s, argv, rs, i).value)
    decreases |s| - i
  {
    WrapWords(s, Exec(argv), rs);
    if !Peek(s, i, "|)&;") {
      var t := GetToken(s, i);
      if t.kind != NUL {
        RedirsWords(s, rs, t.next);
        var rest := Redirs(s, rs, t.next);
        ArgsWords(s, argv + [Span(t.q, t.eq)], rest.value, rest.pos);
      }
    }
  }

  lemma {:induction false} BacksWords(s: string, c: Cmd, i: nat)
    requires i <= |s| && Clean(s) && Words(s, c)
    ensures Words(s, Backs(s, c, i).value)
    decreases |s| - i
  {
    if Peek(s, i, "&") {
      BacksWords(s, Back(c), GetToken(s, i).next);
    }
  }

  lemma {:induction false} LineWords(s: string, i: nat)
    requires i <= |s| && Clean(s) && Line(s, i).Ok?
    ensures Words(s, Line(s, i).value)
    decreases |s| - i, 3
  {
    PipeWords(s, i);
    var p := PipeLine(s, i);
    BacksWords(s, p.value, p.pos);
    var b := Backs(s, p.value, p.pos);
    if Peek(s, b.pos, ";") {
      LineWords(s, GetToken(s, b.pos).next);
    }
  }

  lemma {:induction false} PipeWords(s: string, i: nat)
    requires i <= |s| && Clean(s) && PipeLine(s, i).Ok?
    ensures Words(s, PipeLine(s, i).value)
    decreases |s| - i, 2
  {
    ExecWords(s, i);
    var e := ExecOrBlock(s, i);
    if Peek(s, e.pos, "|") {
      PipeWords(s, GetToken(s, e.pos).next);
    }
  }

  lemma {:induction false} ExecWords(s: string, i: nat)
    requires i <= |s| && Clean(s) && ExecOrBlock(s, i).Ok?
    ensures Words(s, ExecOrBlock(s, i).value)
    decreases |s| - i, 1
  {
    if Peek(s, i, "(") {
      var j := GetToken(s, i).next;
      LineWords(s, j);
      var c := Line(s, j);
      RedirsWords(s, [], GetToken(s, c.pos).next);
      WrapWords(s, c.value, Redirs(s, [], GetToken(s, c.pos).next).value);
    } else {
      RedirsWords(s, [], i);
      var rs := Redirs(s, [], i);
      ArgsWords(s, [], rs.value, rs.pos);
    }
  }

  // Command trees with their words written out, and how they print.

  datatype Tree =
    | TExec(args: seq<string>)
    | TRedir(cmd: Tree, file: string, out: bool)
    | TPipe(left: Tree, right: Tree)
    | TList(left: Tree, right: Tree)
    | TBack(cmd: Tree)

  function Text(s: string, w: Span): string
    requires IsWord(s, w)
  {
    s[w.q..w.eq]
  }

  /** The tree a command stands for on line s. */
  function Meaning(s: string, c: Cmd): Tree
    requires Words(s, c)
  {
    match c
    case Exec(argv) => TExec(seq(|argv|, k requires 0 <= k < |argv| => Text(s, argv[k])))
    case Redir(d, r) => TRedir(Meaning(s, d), Text(s, r.file), r.out)
    case Pipe(l, r) => TPipe(Meaning(s, l), Meaning(s, r))
    case List(l, r) => TList(Meaning(s, l), Meaning(s, r))
    case Back(d) => TBack(Meaning(s, d))
  }

  predicate LegalWord(w: string) { |w| > 0 && forall i :: 0 <= i < |w| ==> WordChar(w[i]) }

  /** Words of word characters and fewer than MAXARGS arguments. */
  predicate Legal(t: Tree) {
    match t
    case TExec(args) => |args| < MAXARGS && forall k :: 0 <= k < |args| ==> LegalWord(args[k])
    case TRedir(c, f, _) => Legal(c) && LegalWord(f)
    case TPipe(l, r) => Legal(l) && Legal(r)
    case TList(l, r) => Legal(l) && Legal(r)
    case TBack(c) => Legal(c)
  }

  function Join(args: seq<string>): string {
    if args == [] then "" else if |args| == 1 then args[0] else args[0] + " " + Join(args[1..])
  }

  function Print(t: Tree): string {
    match t
    case TExec(args) => Join(args)
    case TRedir(c, f, out) => "(" + Print(c) + ")" + (if out then ">" else "<") + f
    case TPipe(l, r) => "(" + Print(l) + ")" + "|" + "(" + Print(r) + ")"
    case TList(l, r) => "(" + Print(l) + ")" + ";" + "(" + Print(r) + ")"
    case TBack(c) => "(" + Print(c) + ")" + "&"
  }

  /** The characters of w stand in s from i on. */
  predicate At(s: string, i: nat, w: string) {
    i + |w| <= |s| && forall k :: 0 <= k < |w| ==> s[i + k] == w[k]
  }

  lemma AtSplit(s: string, i: nat, u: string, v: string)
    requires At(s, i, u + v)
    ensures At(s, i, u) && At(s, i + |u|, v)
  {
    forall k | 0 <= k < |u| ensures s[i + k] == u[k] {
      assert (u + v)[k] == u[k];
    }
    forall k | 0 <= k < |v| ensures s[i + |u| + k] == v[k] {
      assert (u + v)[|u| + k] == v[k];
    }
  }

  /** A printed line ends at the end of s or before a closing parenthesis. */
  predicate Stops(s: string, i: nat) { i == |s| || (i < |s| && s[i] == ')') }

  lemma WordToken(s: string, i: nat, w: string)
    requires Clean(s) && At(s, i, w) && LegalWord(w) && (i + |w| < |s| ==> !WordChar(s[i + |w|]))
    ensures var t := GetToken(s, i);
      t.kind == 'a' && t.q == i && t.eq == i + |w| && t.next == Skip(s, i + |w|) && Text(s, Span(t.q, t.eq)) == w
  {
    assert forall k :: i <= k < i + |w| ==> s[k] == w[k - i];
    assert s[i..i + |w|] == w;
  }

  lemma SymbolToken(s: string, i: nat)
    requires Clean(s) && i < |s| && Symbol(s[i]) && (s[i] == '>' ==> Ch(s, i + 1) != '>')
    ensures var t := GetToken(s, i); t.kind == s[i] && t.next == Skip(s, i + 1)
  {
  }

  /** The result r is a command that means t and ends at e. */
  predicate Reads(s: string, r: Parsed<Cmd>, e: nat, t: Tree) {
    r.Ok? && r.pos == e && Words(s, r.value) && Meaning(s, r.value) == t
  }

  predicate Texts(s: string, argv: seq<Span>, args: seq<string>) {
    |argv| == |args| && forall k :: 0 <= k < |argv| ==> IsWord(s, argv[k]) && Text(s, argv[k]) == args[k]
  }

  lemma ExecMeaning(s: string, argv: seq<Span>, args: seq<string>)
    requires Texts(s, argv, args)
    ensures Words(s, Exec(argv)) && Meaning(s, Exec(argv)) == TExec(args)
  {
    assert Meaning(s, Exec(argv)).args == args;
  }

  /** No redirection follows where a printed command stops. */
  lemma NoRedirs(s: string, rs: seq<Redirection>, i: nat)
    requires Clean(s) && i <= |s| && (i < |s| ==> !White(s[i]) && s[i] != '<' && s[i] != '>')
    ensures Redirs(s, rs, i) == Ok(rs, i)
  {
  }

  lemma JoinFirst(args: seq<string>)
    requires args != [] && forall k :: 0 <= k < |args| ==> LegalWord(args[k])
    ensures |Join(args)| > 0 && |args[0]| > 0 && Join(args)[0] == args[0][0] && WordChar(args[0][0])
  {
  }

  lemma AtChar(s: string, i: nat, c: char)
    requires At(s, i, [c])
    ensures i < |s| && s[i] == c
  {
    assert s[i + 0] == [c][0];
  }

  lemma AtFirst(s: string, i: nat, w: string)
    requires At(s, i, w) && w != ""
    ensures i < |s| && s[i] == w[0]
  {
    assert s[i + 0] == w[0];
  }

  /** Before a word character no symbol is seen. */
  lemma PeekWord(s: string, i: nat, toks: string)
    requires i < |s| && WordChar(s[i]) && forall k :: 0 <= k < |toks| ==> Symbol(toks[k])
    ensures Skip(s, i) == i && !Peek(s, i, toks)
  {
  }

  /** What is seen before a symbol. */
  lemma PeekSymbol(s: string, i: nat, c: char, tok: char)
    requires i < |s| && s[i] == c && Symbol(c)
    ensures Skip(s, i) == i && (Peek(s, i, [tok]) <==> c == tok)
  {
  }

  lemma PeekEnd(s: string, toks: string)
    ensures Skip(s, |s|) == |s| && !Peek(s, |s|, toks)
  {
  }

  lemma ArgsDone(s: string, argv: seq<Span>, i: nat)
    requires Clean(s) && Stops(s, i)
    ensures Args(s, argv, [], i) == Ok(Exec(argv), i)
  {
  }

  /** One more argument: a word at i, and no redirection after it. */
  lemma ArgsStep(s: string, argv: seq<Span>, i: nat, w: string, j: nat)
    requires Clean(s) && At(s, i, w) && LegalWord(w) && |argv| + 1 < MAXARGS
    requires i + |w| <= j <= |s| && (j < |s| ==> !White(s[j]) && s[j] != '<' && s[j] != '>')
    requires (i + |w| < |s| ==> !WordChar(s[i + |w|])) && forall k :: i + |w| <= k < j ==> White(s[k])
    ensures IsWord(s, Span(i, i + |w|)) && Text(s, Span(i, i + |w|)) == w
    ensures Args(s, argv, [], i) == Args(s, argv + [Span(i, i + |w|)], [], j)
  {
    hide Peek, GetToken, Skip, Redirs, At, LegalWord, Clean;
    WordToken(s, i, w);
    SkipTo(s, i + |w|, j);
    NoRedirs(s, [], j);
    FirstIsWord(s, i, w);
    PeekWord(s, i, "|)&;");
  }

  lemma FirstIsWord(s: string, i: nat, w: string)
    requires At(s, i, w) && LegalWord(w)
    ensures i < |s| && WordChar(s[i])
  {
    AtFirst(s, i, w);
  }

  lemma {:induction false} SkipTo(s: string, i: nat, j: nat)
    requires i <= j <= |s| && (j < |s| ==> !White(s[j])) && forall k :: i <= k < j ==> White(s[k])
    ensures Skip(s, i) == j
    decreases j - i
  {
    if i < j {
      SkipTo(s, i + 1, j);
    }
  }

  /** Where the argument after the first one starts, or the end. */
  lemma JoinNext(s: string, args: seq<string>, i: nat)
    requires args != [] && At(s, i, Join(args)) && Stops(s, i + |Join(args)|) && forall k :: 0 <= k < |args| ==>
      LegalWord(args[k])
    ensures At(s, i, args[0]) && var e := i + |args[0]|; var j := if |args| > 1 then e + 1 else e;
      && At(s, j, Join(args[1..])) && j + |Join(args[1..])| == i + |Join(args)|
      && (e < |s| ==> !WordChar(s[e])) && (forall k :: e <= k < j ==> White(s[k]))
      && (j < |s| ==> !White(s[j]) && s[j] != '<' && s[j] != '>')
  {
    hide Join, LegalWord, At;
    if |args| > 1 {
      var e := i + |args[0]|;
      JoinCons(args);
      AtSplit(s, i, args[0] + [' '], Join(args[1..]));
      AtSplit(s, i, args[0], [' ']);
      AtChar(s, e, ' ');
      JoinFirst(args[1..]);
      AtFirst(s, e + 1, Join(args[1..]));
    } else {
      JoinOne(args);
    }
  }

  lemma JoinCons(args: seq<string>)
    requires |args| > 1
    ensures Join(args) == (args[0] + [' ']) + Join(args[1..])
  {
  }

  lemma JoinOne(args: seq<string>)
    requires |args| == 1
    ensures Join(args) == args[0] && args[1..] == [] && Join(args[1..]) == ""
    ensures forall s: string, i: nat :: i <= |s| ==> At(s, i, "")
  {
  }

  lemma {:induction false} ArgsRead(s: string, argv: seq<Span>, done: seq<string>, args: seq<string>, i: nat)
    requires Clean(s) && Texts(s, argv, done) && |done| + |args| < MAXARGS && forall k :: 0 <= k < |args| ==>
      LegalWord(args[k])
    requires At(s, i, Join(args)) && Stops(s, i + |Join(args)|)
    ensures Reads(s, Args(s, argv, [], i), i + |Join(args)|, TExec(done + args))
    decreases |args|
  {
    hide Args, Text, At, Join, IsWord;
    if args == [] {
      assert done + args == done && Join(args) == "" by {
        JoinNone();
      }
      ArgsDone(s, argv, i);
      ExecMeaning(s, argv, done);
    } else {
      var w := args[0];
      var e := i + |w|;
      var j := if |args| > 1 then e + 1 else e;
      JoinNext(s, args, i);
      AtBound(s, j, Join(args[1..]));
      ArgsStep(s, argv, i, w, j);
      assert done + args == (done + [w]) + args[1..];
      ArgsRead(s, argv + [Span(i, e)], done + [w], args[1..], j);
    }
  }

  lemma AtBound(s: string, i: nat, w: string)
    requires At(s, i, w)
    ensures i + |w| <= |s|
  {
  }

  lemma JoinNone()
    ensures Join([]) == ""
  {
  }

  lemma PrintFirst(t: Tree)
    requires Legal(t)
    ensures Print(t) != "" ==> !White(Print(t)[0]) && Print(t)[0] != '<' && Print(t)[0] != '>'
    ensures Print(t) != "" && Print(t)[0] != '(' ==> t.TExec?
    ensures t.TExec? && Print(t) != "" ==> WordChar(Print(t)[0])
  {
    if t.TExec? && t.args != [] {
      JoinFirst(t.args);
    }
  }

  /** A block or simple command that a printed line consists of. */
  lemma LineOfExec(s: string, i: nat, e: nat, t: Tree)
    requires Clean(s) && i <= |s| && Reads(s, ExecOrBlock(s, i), e, t) && Stops(s, e)
    ensures Reads(s, PipeLine(s, i), e, t) && Reads(s, Line(s, i), e, t)
  {
  }

  lemma ExecRead(s: string, i: nat, args: seq<string>)
    requires Clean(s) && Legal(TExec(args)) && At(s, i, Join(args)) && Stops(s, i + |Join(args)|)
    ensures Reads(s, ExecOrBlock(s, i), i + |Join(args)|, TExec(args))
  {
    hide ExecOrBlock, Args, Reads, At;
    if args == [] {
      JoinNone();
    } else {
      JoinFirst(args);
      AtFirst(s, i, Join(args));
    }
    NoBlock(s, i);
    assert [] + args == args;
    ArgsRead(s, [], [], args, i);
  }

  lemma NoBlock(s: string, i: nat)
    requires Clean(s) && i <= |s| && (Stops(s, i) || WordChar(s[i]))
    ensures ExecOrBlock(s, i) == Args(s, [], [], i)
  {
    NoRedirs(s, [], i);
    if i == |s| {
      PeekEnd(s, "(");
    } else if s[i] == ')' {
      PeekSymbol(s, i, ')', '(');
    } else {
      PeekWord(s, i, "(");
    }
    hide Peek, Redirs, Args;
  }

  /** A character that may follow a printed block: nothing the parser would skip or read as redirection. */
  predicate After(s: string, e: nat) { e <= |s| && (e < |s| ==> !White(s[e]) && s[e] != '<' && s[e] != '>') }

  lemma Parens(s: string, i: nat, t: Tree)
    requires At(s, i, "(" + Print(t) + ")")
    ensures i + |Print(t)| + 1 < |s| && s[i] == '(' && At(s, i + 1, Print(t)) && s[i + 1 + |Print(t)|] == ')'
  {
    hide Print;
    var p := Print(t);
    assert "(" + p + ")" == (['('] + p) + [')'];
    AtSplit(s, i, ['('] + p, [')']);
    AtSplit(s, i, ['('], p);
    AtChar(s, i, '(');
    AtChar(s, i + 1 + |p|, ')');
  }

  /** A symbol other than > with no white space after it. */
  lemma SymbolNext(s: string, i: nat)
    requires Clean(s) && i < |s| && Symbol(s[i]) && s[i] != '>' && (i + 1 < |s| ==> !White(s[i + 1]))
    ensures GetToken(s, i).next == i + 1 && GetToken(s, i).kind == s[i] && Peek(s, i, [s[i]])
  {
    SymbolToken(s, i);
    SkipTo(s, i + 1, i + 1);
    PeekSymbol(s, i, s[i], s[i]);
  }

  lemma BlockUnfold(s: string, i: nat, j: nat)
    requires Clean(s) && i < j < |s| && Peek(s, i, "(") && GetToken(s, i).next == i + 1
    requires Line(s, i + 1).Ok? && Line(s, i + 1).pos == j && Peek(s, j, ")") && GetToken(s, j).next == j + 1
    ensures var rs := Redirs(s, [], j + 1);
      ExecOrBlock(s, i) == if rs.Panic? then Panic else Ok(Wrap(Line(s, i + 1).value, rs.value), rs.pos)
  {
    hide Peek, GetToken, Redirs, Line, Wrap;
  }

  /** A parenthesised line whose inside is read: what remains is the redirections after it. */
  lemma BlockRead(s: string, i: nat, t: Tree)
    requires Clean(s) && Legal(t) && At(s, i, "(" + Print(t) + ")")
    requires Reads(s, Line(s, i + 1), i + 1 + |Print(t)|, t)
    requires var e := i + |Print(t)| + 2; e < |s| ==> !White(s[e])
    ensures i + |Print(t)| + 2 <= |s|
    ensures var rs := Redirs(s, [], i + |Print(t)| + 2);
      ExecOrBlock(s, i) == if rs.Panic? then Panic else Ok(Wrap(Line(s, i + 1).value, rs.value), rs.pos)
  {
    hide Print, At, ExecOrBlock, Line, Redirs, Peek, GetToken, Legal, Clean, Wrap, Meaning, Words;
    Parens(s, i, t);
    OpenNext(s, i, t);
    SymbolNext(s, i);
    SymbolNext(s, i + 1 + |Print(t)|);
    BlockUnfold(s, i, i + 1 + |Print(t)|);
  }

  lemma OpenNext(s: string, i: nat, t: Tree)
    requires Legal(t) && i + |Print(t)| + 1 < |s| && At(s, i + 1, Print(t)) && s[i + 1 + |Print(t)|] == ')'
    ensures !White(s[i + 1])
  {
    hide Print, Legal;
    PrintFirst(t);
    if Print(t) != "" {
      AtFirst(s, i + 1, Print(t));
    }
  }

  lemma BlockAlone(s: string, i: nat, t: Tree)
    requires Clean(s) && Legal(t) && At(s, i, "(" + Print(t) + ")") && After(s, i + |Print(t)| + 2)
    requires Reads(s, Line(s, i + 1), i + 1 + |Print(t)|, t)
    ensures Reads(s, ExecOrBlock(s, i), i + |Print(t)| + 2, t)
  {
    hide ExecOrBlock, Line, At, Print;
    BlockRead(s, i, t);
    NoRedirs(s, [], i + |Print(t)| + 2);
  }

  // The four ways a printed line continues after its first block, which ends at e.

  lemma RedirRead(s: string, i: nat, e: nat, t: Tree, f: string, out: bool)
    requires Clean(s) && LegalWord(f) && e < |s| && s[e] == (if out then '>' else '<') && At(s, e + 1, f)
    requires Stops(s, e + 1 + |f|)
    ensures Redirs(s, [], e) == Ok([Redirection(Span(e + 1, e + 1 + |f|), out)], e + 1 + |f|)
    ensures IsWord(s, Span(e + 1, e + 1 + |f|)) && Text(s, Span(e + 1, e + 1 + |f|)) == f
  {
    hide Redirs, At, Peek, GetToken, Skip, Text, IsWord;
    AtBound(s, e + 1, f);
    AtFirst(s, e + 1, f);
    SymbolToken(s, e);
    SkipTo(s, e + 1, e + 1);
    WordToken(s, e + 1, f);
    var z := e + 1 + |f|;
    SkipTo(s, z, z);
    NoRedirs(s, [Redirection(Span(e + 1, z), out)], z);
    PeekRedir(s, e);
    RedirsUnfold(s, e, e + 1, z, out);
  }

  lemma PeekRedir(s: string, i: nat)
    requires i < |s| && (s[i] == '<' || s[i] == '>')
    ensures Peek(s, i, "<>")
  {
    assert "<>"[0] == '<' && "<>"[1] == '>';
  }

  lemma RedirsUnfold(s: string, e: nat, q: nat, z: nat, out: bool)
    requires Clean(s) && e < q < z <= |s| && Peek(s, e, "<>") && GetToken(s, e).next == q
    requires (GetToken(s, e).kind != '<' <==> out)
    requires GetToken(s, q).kind == 'a' && GetToken(s, q).q == q && GetToken(s, q).eq == z && GetToken(s, q).next == z
    requires Redirs(s, [Redirection(Span(q, z), out)], z) == Ok([Redirection(Span(q, z), out)], z)
    ensures Redirs(s, [], e) == Ok([Redirection(Span(q, z), out)], z)
  {
    hide Peek, GetToken;
    assert [] + [Redirection(Span(q, z), out)] == [Redirection(Span(q, z), out)];
  }

  lemma PipeRead(s: string, i: nat, e: nat, l: Tree, z: nat, r: Tree)
    requires Clean(s) && i <= e < |s| && Reads(s, ExecOrBlock(s, i), e, l) && s[e] == '|'
    requires (e + 1 < |s| ==> !White(s[e + 1]))
    requires Reads(s, PipeLine(s, e + 1), z, r) && Stops(s, z)
    ensures Reads(s, Line(s, i), z, TPipe(l, r))
  {
    SymbolNext(s, e);
    PipeUnfold(s, i, e);
    LineStops(s, i, z);
  }

  lemma PipeUnfold(s: string, i: nat, e: nat)
    requires Clean(s) && i <= e < |s| && ExecOrBlock(s, i).Ok? && ExecOrBlock(s, i).pos == e && Peek(s, e, "|")
    requires GetToken(s, e).next == e + 1
    requires PipeLine(s, e + 1).Ok?
    ensures PipeLine(s, i) == Ok(Pipe(ExecOrBlock(s, i).value, PipeLine(s, e + 1).value), PipeLine(s, e + 1).pos)
  {
    hide ExecOrBlock, Peek, GetToken;
  }

  /** A pipeline that ends where a printed line stops is the whole line. */
  lemma LineStops(s: string, i: nat, z: nat)
    requires Clean(s) && i <= |s| && PipeLine(s, i).Ok? && PipeLine(s, i).pos == z && Stops(s, z)
    ensures Line(s, i) == PipeLine(s, i)
  {
    hide PipeLine;
    if z == |s| {
      PeekEnd(s, "&");
      PeekEnd(s, ";");
    } else {
      PeekSymbol(s, z, ')', '&');
      PeekSymbol(s, z, ')', ';');
    }
    hide Peek, GetToken;
  }

  /** A block not followed by a pipe is a whole pipeline. */
  lemma PipeEnds(s: string, i: nat, e: nat)
    requires Clean(s) && i <= e <= |s| && ExecOrBlock(s, i).Ok? && ExecOrBlock(s, i).pos == e && After(s, e)
    requires Ch(s, e) != '|'
    requires e < |s| ==> Symbol(s[e])
    ensures PipeLine(s, i) == ExecOrBlock(s, i)
  {
    hide ExecOrBlock;
    if e == |s| {
      PeekEnd(s, "|");
    } else {
      PeekSymbol(s, e, s[e], '|');
    }
    hide Peek, GetToken;
  }

  lemma ListRead(s: string, i: nat, e: nat, l: Tree, z: nat, r: Tree)
    requires Clean(s) && i <= e < |s| && Reads(s, ExecOrBlock(s, i), e, l) && s[e] == ';'
    requires (e + 1 < |s| ==> !White(s[e + 1]))
    requires Reads(s, Line(s, e + 1), z, r)
    ensures Reads(s, Line(s, i), z, TList(l, r))
  {
    hide ExecOrBlock;
    PipeEnds(s, i, e);
    SymbolNext(s, e);
    PeekSymbol(s, e, ';', '&');
    ListUnfold(s, i, e);
  }

  lemma ListUnfold(s: string, i: nat, e: nat)
    requires Clean(s) && i <= e < |s| && PipeLine(s, i).Ok? && PipeLine(s, i).pos == e && Skip(s, e) == e
    requires !Peek(s, e, "&")
    requires Peek(s, e, ";") && GetToken(s, e).next == e + 1 && Line(s, e + 1).Ok?
    ensures Line(s, i) == Ok(List(PipeLine(s, i).value, Line(s, e + 1).value), Line(s, e + 1).pos)
  {
    hide PipeLine, Peek, GetToken, Skip;
  }

  lemma BackRead(s: string, i: nat, e: nat, t: Tree)
    requires Clean(s) && i <= e < |s| && Reads(s, ExecOrBlock(s, i), e, t) && s[e] == '&' && Stops(s, e + 1)
    ensures Reads(s, Line(s, i), e + 1, TBack(t))
  {
    hide ExecOrBlock;
    PipeEnds(s, i, e);
    SymbolNext(s, e);
    if e + 1 == |s| {
      PeekEnd(s, "&");
      PeekEnd(s, ";");
    } else {
      PeekSymbol(s, e + 1, ')', '&');
      PeekSymbol(s, e + 1, ')', ';');
    }
    BackUnfold(s, i, e);
  }

  lemma BackUnfold(s: string, i: nat, e: nat)
    requires Clean(s) && i <= e < |s| && PipeLine(s, i).Ok? && PipeLine(s, i).pos == e && Peek(s, e, "&")
    requires GetToken(s, e).next == e + 1
    requires Skip(s, e + 1) == e + 1 && !Peek(s, e + 1, "&") && !Peek(s, e + 1, ";")
    ensures Line(s, i) == Ok(Back(PipeLine(s, i).value), e + 1)
  {
    hide PipeLine, Peek, GetToken, Skip;
    var c := PipeLine(s, i).value;
    assert Backs(s, Back(c), e + 1) == Ok(Back(c), e + 1);
    assert Backs(s, c, e) == Ok(Back(c), e + 1);
  }

  lemma BinaryParts(s: string, i: nat, l: string, op: char, r: string)
    requires At(s, i, "(" + l + ")" + [op] + "(" + r + ")")
    ensures At(s, i, "(" + l + ")") && At(s, i + |l| + 3, "(" + r + ")") && i + |l| + 3 + |r| + 2 <= |s|
    ensures s[i + |l| + 2] == op && s[i + |l| + 3] == '('
  {
    var a, b := "(" + l + ")", "(" + r + ")";
    assert "(" + l + ")" + [op] + "(" + r + ")" == (a + [op]) + b;
    AtSplit(s, i, a + [op], b);
    AtSplit(s, i, a, [op]);
    AtChar(s, i + |a|, op);
    AtFirst(s, i + |a| + 1, b);
  }

  lemma RedirParts(s: string, i: nat, l: string, op: char, f: string)
    requires At(s, i, "(" + l + ")" + [op] + f)
    ensures At(s, i, "(" + l + ")") && At(s, i + |l| + 3, f) && i + |l| + 2 < |s| && s[i + |l| + 2] == op
  {
    var a := "(" + l + ")";
    assert "(" + l + ")" + [op] + f == (a + [op]) + f;
    AtSplit(s, i, a + [op], f);
    AtSplit(s, i, a, [op]);
    AtChar(s, i + |a|, op);
  }

  /** The inside of a parenthesised printing is read as its tree. */
  lemma {:induction false} InsideRead(s: string, i: nat, t: Tree)
    requires Clean(s) && Legal(t) && At(s, i, "(" + Print(t) + ")")
    ensures Reads(s, Line(s, i + 1), i + 1 + |Print(t)|, t)
    decreases t, 1
  {
    Parens(s, i, t);
    LineRead(s, i + 1, t);
  }

  /** A block, an operator and a file name. */
  lemma RedirLine(s: string, i: nat, c: Tree, f: string, out: bool)
    requires Clean(s) && Legal(c) && LegalWord(f) && At(s, i, "(" + Print(c) + ")" + [if out then '>' else '<'] + f)
    requires Stops(s, i + |Print(c)| + 3 + |f|) && Reads(s, Line(s, i + 1), i + 1 + |Print(c)|, c)
    ensures Reads(s, Line(s, i), i + |Print(c)| + 3 + |f|, TRedir(c, f, out))
  {
    hide Print, At, ExecOrBlock, Line, Redirs, LegalWord, Legal, Text, IsWord, Clean;
    var e := i + |Print(c)| + 2;
    RedirParts(s, i, Print(c), if out then '>' else '<', f);
    BlockRead(s, i, c);
    RedirRead(s, i, e, c, f, out);
    var r := Redirection(Span(e + 1, e + 1 + |f|), out);
    WrapOne(Line(s, i + 1).value, r);
    RedirMeaning(s, Line(s, i + 1).value, r, c, f, out);
    LineOfExec(s, i, e + 1 + |f|, TRedir(c, f, out));
  }

  lemma RedirMeaning(s: string, c: Cmd, r: Redirection, t: Tree, f: string, out: bool)
    requires Words(s, c) && Meaning(s, c) == t && IsWord(s, r.file) && Text(s, r.file) == f && r.out == out
    ensures Words(s, Redir(c, r)) && Meaning(s, Redir(c, r)) == TRedir(t, f, out)
  {
  }

  lemma WrapOne(c: Cmd, r: Redirection)
    ensures Wrap(c, [r]) == Redir(c, r)
  {
    assert [r][..0] == [];
  }

  /** Two blocks around an operator. */
  lemma BlocksRead(s: string, i: nat, l: Tree, op: char, r: Tree)
    requires Clean(s) && Legal(l) && Legal(r) && At(s, i, "(" + Print(l) + ")" + [op] + "(" + Print(r) + ")")
    requires (op == '|' || op == ';')
    requires Stops(s, i + |Print(l)| + 3 + |Print(r)| + 2)
    requires Reads(s, Line(s, i + 1), i + 1 + |Print(l)|, l)
    requires i + |Print(l)| + 4 <= |s| && Reads(s, Line(s, i + |Print(l)| + 4), i + |Print(l)| + 4 + |Print(r)|, r)
    ensures var e := i + |Print(l)| + 2; var z := e + 1 + |Print(r)| + 2;
      && z <= |s| && s[e] == op && s[e + 1] == '(' && Reads(s, ExecOrBlock(s, i), e, l)
      && Reads(s, PipeLine(s, e + 1), z, r) && Reads(s, Line(s, e + 1), z, r)
  {
    hide Print, At, ExecOrBlock, Line, PipeLine, Legal, Reads, Clean;
    var e := i + |Print(l)| + 2;
    BinaryParts(s, i, Print(l), op, Print(r));
    BlockAlone(s, i, l);
    BlockAlone(s, e + 1, r);
    LineOfExec(s, e + 1, e + 1 + |Print(r)| + 2, r);
  }

  lemma {:induction false} BinaryRead(s: string, i: nat, l: Tree, op: char, r: Tree)
    requires Clean(s) && Legal(l) && Legal(r) && At(s, i, "(" + Print(l) + ")" + [op] + "(" + Print(r) + ")")
    requires (op == '|' || op == ';')
    requires Stops(s, i + |Print(l)| + 3 + |Print(r)| + 2)
    requires Reads(s, Line(s, i + 1), i + 1 + |Print(l)|, l)
    requires i + |Print(l)| + 4 <= |s| && Reads(s, Line(s, i + |Print(l)| + 4), i + |Print(l)| + 4 + |Print(r)|, r)
    ensures Reads(s, Line(s, i), i + |Print(l)| + 3 + |Print(r)| + 2, if op == '|' then TPipe(l, r) else TList(l, r))
  {
    hide Print, At, ExecOrBlock, Line, PipeLine, Legal, Reads, Clean;
    var e := i + |Print(l)| + 2;
    BlocksRead(s, i, l, op, r);
    if op == '|' {
      PipeRead(s, i, e, l, e + 1 + |Print(r)| + 2, r);
    } else {
      ListRead(s, i, e, l, e + 1 + |Print(r)| + 2, r);
    }
  }

  lemma BackLine(s: string, i: nat, c: Tree)
    requires Clean(s) && Legal(c) && At(s, i, "(" + Print(c) + ")" + "&") && Stops(s, i + |Print(c)| + 3)
    requires Reads(s, Line(s, i + 1), i + 1 + |Print(c)|, c)
    ensures Reads(s, Line(s, i), i + |Print(c)| + 3, TBack(c))
  {
    hide Print, At, ExecOrBlock, Line, Legal, Reads, Clean;
    assert "(" + Print(c) + ")" + "&" == "(" + Print(c) + ")" + ['&'] + "";
    RedirParts(s, i, Print(c), '&', "");
    BlockAlone(s, i, c);
    BackRead(s, i, i + |Print(c)| + 2, c);
  }

  /** A printed tree that stands in s up to a stopping place is read as that tree, and no further. */
  lemma {:induction false} LineRead(s: string, i: nat, t: Tree)
    requires Clean(s) && Legal(t) && At(s, i, Print(t)) && Stops(s, i + |Print(t)|)
    ensures Reads(s, Line(s, i), i + |Print(t)|, t)
    decreases t, 0
  {
    hide At, ExecOrBlock, Line, Reads, Clean, Join;
    match t
    case TExec(args) =>
      ExecRead(s, i, args);
      LineOfExec(s, i, i + |Join(args)|, t);
    case TRedir(c, f, out) =>
      assert Print(t) == "(" + Print(c) + ")" + [if out then '>' else '<'] + f;
      RedirParts(s, i, Print(c), if out then '>' else '<', f);
      InsideRead(s, i, c);
      RedirLine(s, i, c, f, out);
    case TPipe(l, r) =>
      assert Print(t) == "(" + Print(l) + ")" + ['|'] + "(" + Print(r) + ")";
      BinaryParts(s, i, Print(l), '|', Print(r));
      InsideRead(s, i, l);
      InsideRead(s, i + |Print(l)| + 3, r);
      BinaryRead(s, i, l, '|', r);
    case TList(l, r) =>
      assert Print(t) == "(" + Print(l) + ")" + [';'] + "(" + Print(r) + ")";
      BinaryParts(s, i, Print(l), ';', Print(r));
      InsideRead(s, i, l);
      InsideRead(s, i + |Print(l)| + 3, r);
      BinaryRead(s, i, l, ';', r);
    case TBack(c) =>
      assert Print(t) == "(" + Print(c) + ")" + "&";
      AtSplit(s, i, "(" + Print(c) + ")", "&");
      InsideRead(s, i, c);
      BackLine(s, i, c);
  }

  lemma {:induction false} JoinClean(args: seq<string>)
    requires forall k :: 0 <= k < |args| ==> LegalWord(args[k])
    ensures Clean(Join(args))
  {
    if |args| > 1 {
      JoinClean(args[1..]);
    }
  }

  lemma {:induction false} PrintClean(t: Tree)
    requires Legal(t)
    ensures Clean(Print(t))
  {
    match t
    case TExec(args) => JoinClean(args);
    case TRedir(c, _, _) => PrintClean(c);
    case TPipe(l, r) => PrintClean(l); PrintClean(r);
    case TList(l, r) => PrintClean(l); PrintClean(r);
    case TBack(c) => PrintClean(c);
  }

  /** Parsing the parenthesised printing of a legal tree gives back the tree. */
  lemma RoundTrip(t: Tree)
    requires Legal(t)
    ensures Clean(Print(t)) && Reads(Print(t), ParseLine(Print(t)), |Print(t)|, t)
  {
    hide Line, Print, Clean;
    PrintClean(t);
    var s := Print(t);
    assert At(s, 0, s);
    LineRead(s, 0, t);
    PeekEnd(s, "");
    hide Skip, At;
  }

  // The parser itself: a cursor over the line.

  datatype Option<T> = Some(value: T) | None

  /** The outcome of a parsing method against the grammar's result. */
  ghost predicate Agrees<T(!new)>(r: Option<T>, ps: nat, p: Parsed<T>) {
    match p
    case Ok(v, pos) => r == Some(v) && ps == pos
    case Panic => r.None?
  }

  class Parser {
    const s: string
    var ps: nat

    constructor (s: string)
      requires Clean(s)
      ensures this.s == s && ps == 0 && Valid()
    {
      this.s, ps := s, 0;
    }

    ghost predicate Valid()
      reads this
    {
      ps <= |s| && Clean(s)
    }

    /** The loop over white space in gettoken and peek. */
    method SkipWhite()
      requires Valid()
      modifies this
      ensures Valid() && ps == Skip(s, old(ps))
    {
      while ps < |s| && White(s[ps])
        invariant Valid() && old(ps) <= ps && Skip(s, ps) == Skip(s, old(ps))
        decreases |s| - ps
      {
        ps := ps + 1;
      }
    }

    method NextToken() returns (kind: char, q: nat, eq: nat)
      requires Valid()
      modifies this
      ensures Valid() && Token(kind, q, eq, ps) == GetToken(s, old(ps))
    {
      SkipWhite();
      q := ps;
      kind := Ch(s, ps);
      if kind == NUL {
      } else if kind == '>' {
        ps := ps + 1;
        if Ch(s, ps) == '>' {
          kind := '+';
          ps := ps + 1;
        }
      } else if Symbol(kind) {
        ps := ps + 1;
      } else {
        kind := 'a';
        while ps < |s| && !White(s[ps]) && !Symbol(s[ps])
          invariant Valid() && q <= ps && WordEnd(s, ps) == WordEnd(s, q)
          decreases |s| - ps
        {
          ps := ps + 1;
        }
      }
      eq := ps;
      SkipWhite();
    }

    method LookFor(toks: string) returns (b: bool)
      requires Valid()
      modifies this
      ensures Valid() && ps == Skip(s, old(ps)) && b == Peek(s, old(ps), toks)
    {
      SkipWhite();
      return Ch(s, ps) != NUL && Ch(s, ps) in toks;
    }

    /** parseredirs: the redirections from the cursor on, after those in rs0. */
    method ReadRedirs(rs0: seq<Redirection>) returns (r: Option<seq<Redirection>>)
      requires Valid()
      modifies this
      ensures Valid() && old(ps) <= ps && Agrees(r, ps, Redirs(s, rs0, old(ps)))
    {
      var rs := rs0;
      while true
        invariant Valid() && old(ps) <= ps && Redirs(s, rs, ps) == Redirs(s, rs0, old(ps))
        decreases |s| - ps
      {
        SkipTwice(s, ps);
        var more := LookFor("<>");
        if !more { return Some(rs); }
        var kind, q, eq := NextToken();
        var word, q1, eq1 := NextToken();
        if word != 'a' { return None; }
        rs := rs + [Redirection(Span(q1, eq1), kind != '<')];
      }
    }

    /** parseexec: a block, or a simple command with its redirections. */
    method ReadExec() returns (r: Option<Cmd>)
      requires Valid()
      modifies this
      ensures Valid() && old(ps) <= ps && Agrees(r, ps, ExecOrBlock(s, old(ps)))
      decreases |s| - ps, 1
    {
      hide Redirs, Args, Peek, GetToken, Skip;
      SkipTwice(s, ps);
      SkipRedirs(s, [], ps);
      var block := LookFor("(");
      if block {
        r := ReadBlock(old(ps));
        return;
      }
      var first := ReadRedirs([]);
      if first.None? { return None; }
      r := ReadArgs(first.value);
    }

    /** parseexec's loop over the arguments. */
    method ReadArgs(rs0: seq<Redirection>) returns (r: Option<Cmd>)
      requires Valid()
      modifies this
      ensures Valid() && old(ps) <= ps && Agrees(r, ps, Args(s, [], rs0, old(ps)))
    {
      hide Redirs, Peek, GetToken, Skip;
      var argv, rs: seq<Redirection> := [], rs0;
      while true
        invariant Valid() && old(ps) <= ps && |argv| < MAXARGS && Args(s, argv, rs, ps) == Args(s, [], rs0, old(ps))
        decreases |s| - ps
      {
        SkipTwice(s, ps);
        var stop := LookFor("|)&;");
        if stop { return Some(Wrap(Exec(argv), rs)); }
        var kind, q, eq := NextToken();
        if kind == NUL { return Some(Wrap(Exec(argv), rs)); }
        if kind != 'a' { return None; }
        argv := argv + [Span(q, eq)];
        if |argv| >= MAXARGS { return None; }
        var more := ReadRedirs(rs);
        if more.None? { return None; }
        rs := more.value;
      }
    }

    /** parseblock, with the cursor past white space after start. */
    method ReadBlock(ghost start: nat) returns (r: Option<Cmd>)
      requires Valid() && start <= |s| && Peek(s, start, "(") && ps == Skip(s, start)
      modifies this
      ensures Valid() && old(ps) <= ps && Agrees(r, ps, Block(s, start))
      decreases |s| - ps, 0
    {
      hide Redirs, Peek, Skip, Line;
      SkipTwice(s, start);
      SkipStart(s, start);
      var kind, q, eq := NextToken();
      var c := ReadLine();
      if c.None? { return None; }
      ghost var j := ps;
      SkipTwice(s, ps);
      var closed := LookFor(")");
      if !closed { return None; }
      kind, q, eq := NextToken();
      var rs := ReadRedirs([]);
      if rs.None? { return None; }
      return Some(Wrap(c.value, rs.value));
    }

    /** parsepipe. */
    method ReadPipe() returns (r: Option<Cmd>)
      requires Valid()
      modifies this
      ensures Valid() && old(ps) <= ps && Agrees(r, ps, PipeLine(s, old(ps)))
      decreases |s| - ps, 2
    {
      hide ExecOrBlock, Peek, GetToken, Skip;
      var c := ReadExec();
      if c.None? { return None; }
      SkipTwice(s, ps);
      ghost var i := ps;
      var more := LookFor("|");
      if !more { return c; }
      PeekToken(s, i, "|");
      var kind, q, eq := NextToken();
      var rest := ReadPipe();
      if rest.None? { return None; }
      return Some(Pipe(c.value, rest.value));
    }

    /** parseline. */
    method ReadLine() returns (r: Option<Cmd>)
      requires Valid()
      modifies this
      ensures Valid() && old(ps) <= ps && Agrees(r, ps, Line(s, old(ps)))
      decreases |s| - ps, 3
    {
      hide PipeLine, Peek, GetToken, Skip;
      var p := ReadPipe();
      if p.None? { return None; }
      var c := p.value;
      ghost var j := ps;
      var back := true;
      while back
        invariant Valid() && old(ps) <= ps && Backs(s, c, ps) == Backs(s, p.value, j)
        invariant !back ==> Backs(s, c, ps) == Ok(c, ps) && Skip(s, ps) == ps
        decreases |s| - ps, if back then 1 else 0
      {
        ghost var i := ps;
        back := LookFor("&");
        if back {
          PeekToken(s, i, "&");
          var kind, q, eq := NextToken();
          c := Back(c);
        } else {
          PeekSkip(s, i, "&");
        }
      }
      ghost var i := ps;
      var more := LookFor(";");
      if !more { return Some(c); }
      PeekToken(s, i, ";");
      var kind, q, eq := NextToken();
      var rest := ReadLine();
      if rest.None? { return None; }
      return Some(List(c, rest.value));
    }

    /** parsecmd up to nulterminate: None is the panic about leftovers or bad syntax. */
    method ReadAll() returns (r: Option<Cmd>)
      requires Valid() && ps == 0
      modifies this
      ensures Agrees(r, |s|, ParseLine(s))
    {
      hide Line, Skip;
      var c := ReadLine();
      if c.None? { return None; }
      var none := LookFor("");
      if ps != |s| { return None; }
      return c;
    }
  }

  lemma SkipStart(s: string, i: nat)
    requires i <= |s| && Clean(s) && Peek(s, i, "(")
    ensures GetToken(s, i).next > Skip(s, i)
  {
  }

  /** What is peeked is the next token, and taking it moves the cursor. */
  lemma PeekToken(s: string, i: nat, toks: string)
    requires i <= |s| && Clean(s) && Peek(s, i, toks)
    ensures GetToken(s, Skip(s, i)) == GetToken(s, i) && GetToken(s, i).next > Skip(s, i)
  {
    SkipTwice(s, i);
  }

  lemma PeekSkip(s: string, i: nat, toks: string)
    requires i <= |s| && Clean(s)
    ensures Peek(s, Skip(s, i), toks) == Peek(s, i, toks) && Skip(s, Skip(s, i)) == Skip(s, i)
  {
    SkipTwice(s, i);
  }

  lemma SkipRedirs(s: string, rs: seq<Redirection>, i: nat)
    requires i <= |s| && Clean(s)
    ensures Redirs(s, rs, Skip(s, i)) == Redirs(s, rs, i)
  {
    SkipTwice(s, i);
  }

  /** Skipping again changes nothing: peek and gettoken see the same from a skipped cursor. */
  lemma SkipTwice(s: string, i: nat)
    requires i <= |s| && Clean(s)
    ensures Skip(s, Skip(s, i)) == Skip(s, i) && GetToken(s, Skip(s, i)) == GetToken(s, i)
  {
    SkipTo(s, Skip(s, i), Skip(s, i));
  }

  // nulterminate.

  function Spans(c: Cmd): set<Span> {
    match c
    case Exec(argv) => set k | 0 <= k < |argv| :: argv[k]
    case Redir(d, r) => Spans(d) + {r.file}
    case Pipe(l, r) => Spans(l) + Spans(r)
    case List(l, r) => Spans(l) + Spans(r)
    case Back(d) => Spans(d)
  }

  lemma {:induction false} SpansAreWords(s: string, c: Cmd, w: Span)
    requires Words(s, c) && w in Spans(c)
    ensures IsWord(s, w)
  {
    match c
    case Exec(argv) =>
    case Redir(d, r) => if w in Spans(d) { SpansAreWords(s, d, w); }
    case Pipe(l, r) => if w in Spans(l) { SpansAreWords(s, l, w); } else { SpansAreWords(s, r, w); }
    case List(l, r) => if w in Spans(l) { SpansAreWords(s, l, w); } else { SpansAreWords(s, r, w); }
    case Back(d) => SpansAreWords(s, d, w);
  }

  /** Position i is the end of one of the spans. */
  predicate Ended(ws: set<Span>, i: nat) { exists w :: w in ws && w.eq == i }

  /** The buffer a after a NUL was written at the end of every span of ws. */
  ghost predicate Cut(a: seq<char>, b: seq<char>, ws: set<Span>) {
    |b| == |a| && forall i :: 0 <= i < |a| ==> b[i] == if Ended(ws, i) then NUL else a[i]
  }

  lemma CutBoth(a: seq<char>, b: seq<char>, c: seq<char>, v: set<Span>, w: set<Span>)
    requires Cut(a, b, v) && Cut(b, c, w)
    ensures Cut(a, c, v + w)
  {
    forall i | 0 <= i < |a| ensures c[i] == if Ended(v + w, i) then NUL else a[i] {
      if Ended(v, i) {
        var x :| x in v && x.eq == i;
        assert x in v + w;
      }
      if Ended(w, i) {
        var x :| x in w && x.eq == i;
        assert x in v + w;
      }
    }
  }

  lemma CutOne(a: seq<char>, w: Span)
    requires w.eq < |a|
    ensures Cut(a, a[w.eq := NUL], {w})
  {
    forall i | 0 <= i < |a| ensures a[w.eq := NUL][i] == if Ended({w}, i) then NUL else a[i] {
      if i == w.eq {
        assert w in {w} && w.eq == i;
      }
    }
  }

  method NulTerminate(buf: array<char>, c: Cmd)
    requires forall w :: w in Spans(c) ==> w.eq < buf.Length
    modifies buf
    ensures Cut(old(buf[..]), buf[..], Spans(c))
    decreases c
  {
    hide Cut;
    ghost var a := buf[..];
    match c {
      case Exec(argv) =>
        CutNone(a);
        assert buf[..] == a;
        ghost var done: set<Span> := {};
        var i := 0;
        while i < |argv|
          invariant 0 <= i <= |argv| && Cut(a, buf[..], done) && done == set k | 0 <= k < i :: argv[k]
        {
          assert argv[i] in Spans(c);
          ghost var b := buf[..];
          CutOne(b, argv[i]);
          buf[argv[i].eq] := NUL;
          assert buf[..] == b[argv[i].eq := NUL];
          CutBoth(a, b, buf[..], done, {argv[i]});
          done := done + {argv[i]};
          i := i + 1;
        }
      case Redir(d, r) =>
        NulTerminate(buf, d);
        ghost var b := buf[..];
        assert r.file in Spans(c);
        CutOne(b, r.file);
        buf[r.file.eq] := NUL;
        assert buf[..] == b[r.file.eq := NUL];
        CutBoth(a, b, buf[..], Spans(d), {r.file});
      case Pipe(l, r) =>
        NulTerminate(buf, l);
        ghost var b := buf[..];
        NulTerminate(buf, r);
        CutBoth(a, b, buf[..], Spans(l), Spans(r));
      case List(l, r) =>
        NulTerminate(buf, l);
        ghost var b := buf[..];
        NulTerminate(buf, r);
        CutBoth(a, b, buf[..], Spans(l), Spans(r));
      case Back(d) =>
        NulTerminate(buf, d);
    }
  }

  lemma CutNone(a: seq<char>)
    ensures Cut(a, a, {})
  {
  }

  /** The NUL-terminated string at q is w. */
  predicate StringAt(a: seq<char>, q: nat, w: string) {
    q + |w| < |a| && a[q..q + |w|] == w && a[q + |w|] == NUL && Clean(w)
  }

  /** Cutting at the end of every word leaves each word whole. */
  lemma CutKeeps(s: string, a: seq<char>, b: seq<char>, c: Cmd, w: Span)
    requires Clean(s) && |a| > |s| && a[..|s|] == s && Words(s, c) && Cut(a, b, Spans(c)) && w in Spans(c)
    ensures IsWord(s, w) && StringAt(b, w.q, Text(s, w))
  {
    SpansAreWords(s, c, w);
    forall i | w.q <= i < w.eq ensures b[i] == s[i] {
      assert a[i] == s[i];
      if Ended(Spans(c), i) {
        var x :| x in Spans(c) && x.eq == i;
        SpansAreWords(s, c, x);
      }
    }
    assert Ended(Spans(c), w.eq);
    assert b[w.q..w.eq] == Text(s, w);
  }

  /** strlen. */
  method Length(buf: array<char>) returns (n: nat)
    requires exists i :: 0 <= i < buf.Length && buf[i] == NUL
    ensures n < buf.Length && buf[n] == NUL && Clean(buf[..n])
  {
    n := 0;
    while buf[n] != NUL
      invariant n < buf.Length && (exists i :: n <= i < buf.Length && buf[i] == NUL) && forall i :: 0 <= i < n ==>
        buf[i] != NUL
      decreases buf.Length - n
    {
      n := n + 1;
    }
  }

  /**
   * parsecmd: the command that the grammar gives for the line in buf, and then every word
   * it points at, argument or file name, is a NUL-terminated string in buf: its token.
   */
  method ParseCmd(buf: array<char>) returns (r: Option<Cmd>, ghost line: string)
    requires exists i :: 0 <= i < buf.Length && buf[i] == NUL
    modifies buf
    ensures |line| < buf.Length && line == old(buf[..])[..|line|] && old(buf[..])[|line|] == NUL && Clean(line)
    ensures Agrees(r, |line|, ParseLine(line))
    ensures r.Some? ==> Words(line, r.value)
    ensures r.Some? ==> forall w :: w in Spans(r.value) ==> IsWord(line, w) && StringAt(buf[..], w.q, Text(line, w))
    ensures r.None? ==> buf[..] == old(buf[..])
  {
    hide Cut, StringAt, Line, IsWord, Words, Spans;
    var n := Length(buf);
    line := buf[..n];
    ghost var a := buf[..];
    assert a[..n] == line;
    var parser := new Parser(buf[..n]);
    r := parser.ReadAll();
    if r.None? { return; }
    LineWords(line, 0);
    forall w | w in Spans(r.value) ensures w.eq < buf.Length {
      SpansAreWords(line, r.value, w);
      WordBound(line, w);
    }
    NulTerminate(buf, r.value);
    forall w | w in Spans(r.value) ensures IsWord(line, w) && StringAt(buf[..], w.q, Text(line, w)) {
      CutKeeps(line, a, buf[..], r.value, w);
    }
  }

  lemma WordBound(s: string, w: Span)
    requires IsWord(s, w)
    ensures w.eq <= |s|
  {
  }
}
