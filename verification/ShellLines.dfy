/** Simple commands as one types them (sh.c): words and redirections in any order, with any white
    space between them, and what the parser makes of them. */
module ShellLines {
  import opened Shell
  import opened ShellGrammar

  datatype Op = In | Out | Append

  /** What stands on the line after the white space gap; mid stands between an operator and its file. */
  datatype Item = AWord(gap: string, w: string) | ARedir(gap: string, op: Op, mid: string, file: string)

  function OpText(op: Op): string {
    match op
    case In => "<"
    case Out => ">"
    case Append => ">>"
  }

  function ItemText(x: Item): string {
    match x
    case AWord(gap, w) => gap + w
    case ARedir(gap, op, mid, file) => gap + (OpText(op) + (mid + file))
  }

  /** The line of the items, with white space behind. */
  function Render(items: seq<Item>, tail: string): string {
    if items == [] then tail else ItemText(items[0]) + Render(items[1..], tail)
  }

  predicate Blank(w: string) { forall k :: 0 <= k < |w| ==> White(w[k]) }

  /** Words are made of word characters, and only the first may stand without white space before it. */
  predicate Typed(items: seq<Item>, tail: string) {
    && Blank(tail)
    && (forall k :: 0 <= k < |items| ==> TypedItem(items[k]))
    && forall k :: 1 <= k < |items| && items[k].AWord? ==> items[k].gap != ""
  }

  predicate TypedItem(x: Item) {
    match x
    case AWord(gap, w) => Blank(gap) && LegalWord(w)
    case ARedir(gap, _, mid, file) => Blank(gap) && Blank(mid) && LegalWord(file)
  }

  function WordsOf(items: seq<Item>): seq<string> {
    if items == [] then [] else (if items[0].AWord? then [items[0].w] else []) + WordsOf(items[1..])
  }

  /** The redirections in order: the file and whether it is for output. */
  function RedirsOf(items: seq<Item>): seq<(string, bool)> {
    if items == [] then []
    else (if items[0].ARedir? then [(items[0].file, items[0].op != In)] else []) + RedirsOf(items[1..])
  }

  /** Each redirection goes around the command and those before it. */
  function Around(t: Tree, rs: seq<(string, bool)>): Tree
    decreases |rs|
  {
    if rs == [] then t else Around(TRedir(t, rs[0].0, rs[0].1), rs[1..])
  }

  // The tokens of such a line.

  /** Position i of s is the end or not inside a word. */
  predicate Apart(s: string, i: nat) { i <= |s| && (i < |s| ==> !WordChar(s[i])) }

  lemma AtSkip(s: string, i: nat, gap: string)
    requires Clean(s) && At(s, i, gap) && Blank(gap) && (i + |gap| < |s| ==> !White(s[i + |gap|]))
    ensures Skip(s, i) == i + |gap| && GetToken(s, i) == GetToken(s, i + |gap|) && Toks(s, i) == Toks(s, i + |gap|)
  {
    forall k | i <= k < i + |gap| ensures White(s[k]) {
      assert s[i + (k - i)] == gap[k - i];
    }
    SkipTo(s, i, i + |gap|);
    SkipTwice(s, i);
  }

  /** A word at i, after white space, and then the tokens behind it. */
  lemma WordTok(s: string, i: nat, gap: string, w: string)
    requires Clean(s) && At(s, i, gap + w) && Blank(gap) && LegalWord(w) && Apart(s, i + |gap| + |w|)
    ensures var q, e := i + |gap|, i + |gap| + |w|;
      IsWord(s, Span(q, e)) && Text(s, Span(q, e)) == w && Toks(s, i) == [Word(Span(q, e))] + Toks(s, e)
  {
    hide Toks, GetToken, Skip, Clean, LegalWord, Text, IsWord;
    AtSplit(s, i, gap, w);
    FirstIsWord(s, i + |gap|, w);
    AtSkip(s, i, gap);
    WordToken(s, i + |gap|, w);
    WordSpan(s, i + |gap|, w);
    TokenToks(s, i + |gap|);
    ToksSkip(s, i + |gap| + |w|);
  }

  lemma WordSpan(s: string, q: nat, w: string)
    requires Clean(s) && At(s, q, w) && LegalWord(w) && Apart(s, q + |w|)
    ensures IsWord(s, Span(q, q + |w|)) && Text(s, Span(q, q + |w|)) == w
  {
    WordToken(s, q, w);
  }

  lemma TokenToks(s: string, i: nat)
    requires i <= |s| && Clean(s)
    ensures var t := GetToken(s, i); t.kind != NUL ==> Toks(s, i) == [TokOf(t)] + Toks(s, t.next)
  {
  }

  function OpChar(op: Op): char {
    match op
    case In => '<'
    case Out => '>'
    case Append => '+'
  }

  lemma {:induction false} OpTok(s: string, i: nat, op: Op)
    requires Clean(s) && At(s, i, OpText(op)) && i + |OpText(op)| < |s| && s[i + |OpText(op)|] != '>'
    ensures i < |s| && !White(s[i]) && Toks(s, i) == [Sym(OpChar(op))] + Toks(s, i + |OpText(op)|)
  {
    hide GetToken, Skip, Toks, Clean;
    OpToken(s, i, op);
    KindTok(s, i, OpChar(op), i + |OpText(op)|);
  }

  lemma KindTok(s: string, i: nat, k: char, j: nat)
    requires i <= |s| && j <= |s| && Clean(s) && k != 'a' && k != NUL
    requires GetToken(s, i).kind == k && GetToken(s, i).next == Skip(s, j)
    ensures Toks(s, i) == [Sym(k)] + Toks(s, j)
  {
    hide GetToken, Skip, Toks, Clean;
    TokenToks(s, i);
    ToksSkip(s, j);
  }

  lemma OpToken(s: string, i: nat, op: Op)
    requires Clean(s) && At(s, i, OpText(op)) && i + |OpText(op)| < |s| && s[i + |OpText(op)|] != '>'
    ensures i < |s| && !White(s[i])
    ensures GetToken(s, i).kind == OpChar(op) && GetToken(s, i).next == Skip(s, i + |OpText(op)|)
  {
    AtFirst(s, i, OpText(op));
    if op == Append {
      assert s[i + 1] == OpText(op)[1];
    }
    SkipTo(s, i, i);
    hide Skip, Clean, At;
  }

  /** A redirection at i, after white space. */
  lemma RedirTok(s: string, i: nat, gap: string, op: Op, mid: string, file: string)
    requires Clean(s) && At(s, i, gap + (OpText(op) + (mid + file))) && Blank(gap) && Blank(mid) && LegalWord(file)
    requires Apart(s, i + |gap| + |OpText(op)| + |mid| + |file|)
    ensures var q := i + |gap| + |OpText(op)| + |mid|; var e := q + |file|;
      && IsWord(s, Span(q, e)) && Text(s, Span(q, e)) == file
      && Toks(s, i) == [Sym(OpChar(op)), Word(Span(q, e))] + Toks(s, e)
  {
    hide Toks, GetToken, Skip, Clean, LegalWord, Text, IsWord, OpText;
    var a := i + |gap|;
    var b := a + |OpText(op)|;
    AtSplit(s, i, gap, OpText(op) + (mid + file));
    AtSplit(s, a, OpText(op), mid + file);
    AtSplit(s, b, mid, file);
    FirstIsWord(s, b + |mid|, file);
    MidFirst(s, b, mid);
    OpTok(s, a, op);
    AtSkip(s, i, gap);
    WordTok(s, b, mid, file);
  }

  lemma MidFirst(s: string, b: nat, mid: string)
    requires At(s, b, mid) && Blank(mid) && b + |mid| < |s| && WordChar(s[b + |mid|])
    ensures s[b] != '>'
  {
    if mid != "" {
      AtFirst(s, b, mid);
    }
  }

  /** What follows an item does not run into it. */
  lemma BehindItem(s: string, i: nat, items: seq<Item>, tail: string)
    requires At(s, i, Render(items, tail)) && Blank(tail) && i + |Render(items, tail)| == |s|
    requires items != [] ==> TypedItem(items[0]) && (items[0].AWord? ==> items[0].gap != "")
    ensures Apart(s, i)
  {
    if items == [] {
      if tail != "" {
        AtFirst(s, i, tail);
      }
    } else {
      var x := items[0];
      AtSplit(s, i, ItemText(x), Render(items[1..], tail));
      AtFirst(s, i, ItemText(x));
      if x.gap != "" {
        assert ItemText(x)[0] == x.gap[0];
      }
    }
  }

  /** The derivation of a typed line stands for its words and redirections. */
  ghost predicate Stands(s: string, first: seq<Redirect>, args: seq<Arg>, items: seq<Item>) {
    && Ops(first) && ArgsGood(args) && |args| == |WordsOf(items)|
    && (forall k :: 0 <= k < |args| ==> IsWord(s, args[k].w) && Text(s, args[k].w) == WordsOf(items)[k])
    && Names(s, first + Later(args), RedirsOf(items))
  }

  /** The redirections name these files, for output or not. */
  ghost predicate Names(s: string, rs: seq<Redirect>, names: seq<(string, bool)>) {
    && |rs| == |names|
    && forall k :: 0 <= k < |rs| ==>
         IsWord(s, rs[k].file) && Text(s, rs[k].file) == names[k].0 && (rs[k].op != '<') == names[k].1
  }

  lemma {:induction false} LexLine(s: string, i: nat, items: seq<Item>, tail: string)
    returns (first: seq<Redirect>, args: seq<Arg>)
    requires Clean(s) && Typed(items, tail) && At(s, i, Render(items, tail)) && i + |Render(items, tail)| == |s|
    ensures Toks(s, i) == RedirToks(first) + ArgToks(args) && Stands(s, first, args, items)
    decreases |items|
  {
    hide Toks, Clean, IsWord, Text, LegalWord, ItemText;
    if items == [] {
      first, args := [], [];
      AtSkip(s, i, tail);
      NoToks(s);
    } else {
      var x, more := items[0], items[1..];
      AtSplit(s, i, ItemText(x), Render(more, tail));
      var e := i + |ItemText(x)|;
      BehindItem(s, e, more, tail);
      var first', args' := LexLine(s, e, more, tail);
      match x {
        case AWord(gap, w) =>
          ItemWord(x);
          WordTok(s, i, gap, w);
          first, args := [], [Arg(Span(i + |gap|, e), first')] + args';
          WordStands(s, Span(i + |gap|, e), first', args', items);
        case ARedir(gap, op, mid, file) =>
          ItemRedir(x);
          RedirTok(s, i, gap, op, mid, file);
          var r := Redirect(OpChar(op), Span(e - |file|, e));
          first, args := [r] + first', args';
          RedirStands(s, r, first', args', items);
      }
    }
  }

  lemma NoToks(s: string)
    requires Clean(s)
    ensures Toks(s, |s|) == []
  {
    PeekEnd(s, "");
  }

  lemma ItemWord(x: Item)
    requires x.AWord?
    ensures ItemText(x) == x.gap + x.w
  {
  }

  lemma ItemRedir(x: Item)
    requires x.ARedir?
    ensures ItemText(x) == x.gap + (OpText(x.op) + (x.mid + x.file))
  {
  }

  lemma {:induction false} WordStands(s: string, w: Span, first: seq<Redirect>, args: seq<Arg>, items: seq<Item>)
    requires items != [] && items[0].AWord? && Stands(s, first, args, items[1..])
    requires IsWord(s, w) && Text(s, w) == items[0].w
    ensures Stands(s, [], [Arg(w, first)] + args, items)
    ensures RedirToks([]) + ArgToks([Arg(w, first)] + args) == [Word(w)] + (RedirToks(first) + ArgToks(args))
  {
    hide IsWord, Text, RedirToks, ArgToks, Names;
    WordToks(w, first, args);
    WordParts(w, first, args, items);
    hide WordsOf, RedirsOf, Later;
  }

  lemma WordParts(w: Span, first: seq<Redirect>, args: seq<Arg>, items: seq<Item>)
    requires items != [] && items[0].AWord?
    ensures [] + Later([Arg(w, first)] + args) == first + Later(args)
    ensures WordsOf(items) == [items[0].w] + WordsOf(items[1..]) && RedirsOf(items) == RedirsOf(items[1..])
  {
    assert ([Arg(w, first)] + args)[1..] == args;
  }

  lemma WordToks(w: Span, first: seq<Redirect>, args: seq<Arg>)
    ensures RedirToks([]) + ArgToks([Arg(w, first)] + args) == [Word(w)] + (RedirToks(first) + ArgToks(args))
  {
    var all := [Arg(w, first)] + args;
    assert all[1..] == args;
    assert RedirToks([]) + ArgToks(all) == ArgToks(all);
  }

  lemma {:induction false} RedirStands(s: string, r: Redirect, first: seq<Redirect>, args: seq<Arg>, items: seq<Item>)
    requires items != [] && items[0].ARedir? && Stands(s, first, args, items[1..])
    requires IsWord(s, r.file) && Text(s, r.file) == items[0].file && r.op == OpChar(items[0].op)
    ensures Stands(s, [r] + first, args, items)
    ensures RedirToks([r] + first) + ArgToks(args) == [Sym(r.op), Word(r.file)] + (RedirToks(first) + ArgToks(args))
  {
    hide IsWord, Text;
    assert ([r] + first)[1..] == first;
    assert [r] + first + Later(args) == [r] + (first + Later(args));
    assert RedirsOf(items) == [(items[0].file, items[0].op != In)] + RedirsOf(items[1..]);
    assert WordsOf(items) == WordsOf(items[1..]);
  }

  // What the command means.

  lemma {:induction false} NestedMeaning(s: string, c: Cmd, rs: seq<Redirect>, names: seq<(string, bool)>)
    requires Words(s, c) && Names(s, rs, names)
    ensures Words(s, Nested(c, rs)) && Meaning(s, Nested(c, rs)) == Around(Meaning(s, c), names)
    decreases |rs|
  {
    if rs != [] {
      NestedMeaning(s, Redir(c, Opened(rs[0])), rs[1..], names[1..]);
    }
  }

  lemma {:induction false} RenderClean(items: seq<Item>, tail: string)
    requires Typed(items, tail)
    ensures Clean(Render(items, tail))
    decreases |items|
  {
    if items != [] {
      RenderClean(items[1..], tail);
    }
  }

  /**
   * A line of words and redirections in any order, with white space anywhere, is read as the
   * command of exactly those words with exactly those redirections around it, in order; `>>`
   * is read like `>`. With MAXARGS words or more the shell panics.
   */
  lemma SimpleRoundTrip(items: seq<Item>, tail: string)
    requires Typed(items, tail)
    ensures var s := Render(items, tail);
      && Clean(s)
      && (|WordsOf(items)| < MAXARGS ==>
            Reads(s, ParseLine(s), |s|, Around(TExec(WordsOf(items)), RedirsOf(items))))
      && (|WordsOf(items)| >= MAXARGS ==> ParseLine(s) == Panic)
  {
    var s := Render(items, tail);
    RenderClean(items, tail);
    assert At(s, 0, s);
    var first, args := LexLine(s, 0, items, tail);
    hide Toks, At, Render, ParseLine, Typed, Clean, Words, Meaning, Around;
    if |args| < MAXARGS {
      PlainParses(s, first, args);
      ArgvTexts(s, args, WordsOf(items));
      ExecMeaning(s, Argv(args), WordsOf(items));
      NestedMeaning(s, Exec(Argv(args)), first + Later(args), RedirsOf(items));
    } else {
      TooMany(s, first, args);
    }
  }

  lemma ArgvTexts(s: string, args: seq<Arg>, ws: seq<string>)
    requires |args| == |ws| && forall k :: 0 <= k < |args| ==> IsWord(s, args[k].w) && Text(s, args[k].w) == ws[k]
    ensures Texts(s, Argv(args), ws)
  {
  }

  lemma PlainParses(s: string, first: seq<Redirect>, args: seq<Arg>)
    requires Clean(s) && Ops(first) && ArgsGood(args) && |args| < MAXARGS
    requires Toks(s, 0) == RedirToks(first) + ArgToks(args)
    ensures ParseLine(s) == Ok(Nested(Exec(Argv(args)), first + Later(args)), |s|)
  {
    PlainLine(first, args);
    var l := Last(One(Plain(first, args)), 0);
    hide Toks, LineToks, LineCmd, LineGood, ParseLine;
    assert Derived(s, LineCmd(l));
    ParsesIff(s, LineCmd(l));
  }

  lemma PlainLine(first: seq<Redirect>, args: seq<Arg>)
    requires Ops(first) && ArgsGood(args) && |args| < MAXARGS
    ensures var l := Last(One(Plain(first, args)), 0);
      && LineGood(l) && LineToks(l) == RedirToks(first) + ArgToks(args)
      && LineCmd(l) == Nested(Exec(Argv(args)), first + Later(args))
  {
    hide RedirToks, ArgToks, Nested, Argv, Later, Ops, ArgsGood;
    var e := Plain(first, args);
    assert PipeToks(One(e)) == ExecToks(e) && PipeCmd(One(e)) == ExecCmd(e) && PipeGood(One(e));
    assert LineToks(Last(One(e), 0)) == ExecToks(e) + [];
  }

  lemma {:induction false} ArgsPanic(s: string, argv: seq<Span>, rs: seq<Redirection>, i: nat, args: seq<Arg>)
    requires i <= |s| && Clean(s) && ArgsGood(args) && Toks(s, i) == ArgToks(args)
    requires |argv| < MAXARGS <= |argv| + |args|
    ensures Args(s, argv, rs, i) == Panic
    decreases |args|
  {
    hide Peek, GetToken, Skip, Toks, Clean, Redirs, Wrap;
    var w, here, more := args[0].w, args[0].redirs, args[1..];
    PeekMore(s, i);
    OneTok(s, i, Word(w), RedirToks(here) + ArgToks(more));
    if |argv| + 1 < MAXARGS {
      var t := GetToken(s, i);
      RedirsComplete(s, rs, t.next, here, ArgToks(more));
      var mid := Redirs(s, rs, t.next);
      ArgsPanic(s, argv + [w], mid.value, mid.pos, more);
    }
  }

  lemma {:induction false} TooMany(s: string, first: seq<Redirect>, args: seq<Arg>)
    requires Clean(s) && Ops(first) && ArgsGood(args) && |args| >= MAXARGS
    requires Toks(s, 0) == RedirToks(first) + ArgToks(args)
    ensures ParseLine(s) == Panic
  {
    hide Peek, GetToken, Skip, Toks, Clean, Redirs, Args;
    PeekTok(s, 0);
    assert ArgToks(args) + [] == ArgToks(args);
    PlainFirst(first, args, []);
    RedirsComplete(s, [], 0, first, ArgToks(args));
    var r := Redirs(s, [], 0);
    ArgsPanic(s, [], r.value, r.pos, args);
    assert ExecOrBlock(s, 0) == Panic;
    assert PipeLine(s, 0) == Panic;
  }
}
